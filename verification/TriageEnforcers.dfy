/** The rules a triage answer must obey whatever the model says, as three passes over the
    list of suggestions, each of which may rewrite, drop or add some. */
module TriageEnforcers {
  import opened Options
  import opened Sequences
  import opened Text

  datatype Field = Priority | RequestType | Reporter | Other(name: string)

  datatype Suggestion = Suggestion(field: Field, current: string, suggested: string, reasoning: string,
    confidence: real)

  /** What the passes read of a ticket; `hint` is the reporter its description names, if any. */
  datatype Ticket = Ticket(priority: string, requestType: string, reporter: string, hint: string)

  const SECURITY_ALERT := "Security Alert"
  const SECURITY_REASONING := "Security Alert tickets must be triaged at High priority."
  const NON_NEW_REASONING := "Triage must assign an operational priority; tickets should not remain at New."

  function Max(a: real, b: real): real {
    if a >= b then a else b
  }

  function HintReasoning(hint: string): string {
    "Ticket description explicitly says \"Ticket Created By: " + hint + "\"."
  }

  // ----- Lists of suggestions ------------------------------------------------------------------

  function Keep(ss: seq<Suggestion>, p: Field -> bool): seq<Suggestion> {
    if ss == [] then []
    else Keep(ss[..|ss| - 1], p) + (if p(ss[|ss| - 1].field) then [ss[|ss| - 1]] else [])
  }

  function Is(field: Field): Field -> bool {
    f => f == field
  }

  function IsNot(field: Field): Field -> bool {
    f => f != field
  }

  function Without(ss: seq<Suggestion>, field: Field): seq<Suggestion> {
    Keep(ss, IsNot(field))
  }

  function Count(ss: seq<Suggestion>, field: Field): nat {
    if ss == [] then 0 else Count(ss[..|ss| - 1], field) + (if ss[|ss| - 1].field == field then 1 else 0)
  }

  function FirstRequestType(ss: seq<Suggestion>): Option<Suggestion> {
    if ss == [] then None
    else
      var before := FirstRequestType(ss[..|ss| - 1]);
      if before.Some? then before
      else if ss[|ss| - 1].field == RequestType then Some(ss[|ss| - 1])
      else None
  }

  // ----- The passes --------------------------------------------------------------------------------

  predicate IsNew(value: string) {
    Lower(Strip(value)) == "new"
  }

  function NormalizePriority(value: string): string {
    if IsNew(value) then "Low" else Strip(value)
  }

  function Operational(t: Ticket, s: Suggestion): Suggestion {
    var target := NormalizePriority(s.suggested);
    if s.field != Priority || target == s.suggested then s
    else
      var current := if s.current != "" then s.current else Strip(t.priority);
      Suggestion(Priority, current, target, NON_NEW_REASONING, Max(s.confidence, 0.9))
  }

  function AllOperational(t: Ticket, ss: seq<Suggestion>): seq<Suggestion> {
    if ss == [] then [] else AllOperational(t, ss[..|ss| - 1]) + [Operational(t, ss[|ss| - 1])]
  }

  function NonNewPriority(t: Ticket, ss: seq<Suggestion>): seq<Suggestion> {
    AllOperational(t, ss)
    + (if IsNew(t.priority) && Count(ss, Priority) == 0
       then [Suggestion(Priority, Strip(t.priority), "Low", NON_NEW_REASONING, 0.9)] else [])
  }

  /** The suggestion that the security and the reporter pass insist on. */
  function Forced(t: Ticket, field: Field, current: string, confidence: real): Suggestion {
    if field == Priority
    then Suggestion(Priority, if current != "" then current else t.priority, "High", SECURITY_REASONING, confidence)
    else Suggestion(Reporter, t.reporter, t.hint, HintReasoning(t.hint), confidence)
  }

  function Rewritten(t: Ticket, field: Field, s: Suggestion): Suggestion {
    Forced(t, field, s.current, Max(s.confidence, 0.99))
  }

  /** The first suggestion of the field rewritten in place, later ones dropped. */
  function FirstRewritten(t: Ticket, ss: seq<Suggestion>, field: Field): seq<Suggestion> {
    if ss == [] then []
    else
      var before, s := ss[..|ss| - 1], ss[|ss| - 1];
      FirstRewritten(t, before, field)
      + (if s.field != field then [s] else if Count(before, field) == 0 then [Rewritten(t, field, s)] else [])
  }

  function Single(t: Ticket, ss: seq<Suggestion>, field: Field): seq<Suggestion> {
    FirstRewritten(t, ss, field) + (if Count(ss, field) == 0 then [Forced(t, field, "", 0.99)] else [])
  }

  predicate IsSecurity(t: Ticket, ss: seq<Suggestion>) {
    var s := FirstRequestType(ss);
    (if s.Some? then s.value.suggested else t.requestType) == SECURITY_ALERT
  }

  predicate IsHighEnough(priority: string) {
    priority == "High" || priority == "Highest"
  }

  function SecurityPriority(t: Ticket, ss: seq<Suggestion>): seq<Suggestion> {
    if ss == [] || !IsSecurity(t, ss) then ss
    else if IsHighEnough(t.priority) then Without(ss, Priority)
    else Single(t, ss, Priority)
  }

  predicate ReporterIsHinted(t: Ticket) {
    Lower(t.hint) == Lower(Strip(t.reporter))
  }

  function ReporterHint(t: Ticket, ss: seq<Suggestion>): seq<Suggestion> {
    if t.hint == "" then ss
    else if ReporterIsHinted(t) then Without(ss, Reporter)
    else Single(t, ss, Reporter)
  }

  function Enforce(t: Ticket, ss: seq<Suggestion>): seq<Suggestion> {
    ReporterHint(t, SecurityPriority(t, NonNewPriority(t, ss)))
  }

  // ----- The loops ---------------------------------------------------------------------------------

  method EnforceNonNewPriority(t: Ticket, ss: seq<Suggestion>) returns (normalized: seq<Suggestion>)
    ensures normalized == NonNewPriority(t, ss)
  {
    normalized := [];
    var current, sawPriority := Strip(t.priority), false;
    for i := 0 to |ss|
      invariant normalized == AllOperational(t, ss[..i])
      invariant sawPriority <==> Count(ss[..i], Priority) > 0
    {
      assert ss[..i + 1][..i] == ss[..i];
      var s := ss[i];
      if s.field != Priority {
        normalized := normalized + [s];
      } else {
        sawPriority := true;
        var target := NormalizePriority(s.suggested);
        if target == s.suggested {
          normalized := normalized + [s];
        } else {
          var value := if s.current != "" then s.current else current;
          normalized := normalized + [Suggestion(Priority, value, target, NON_NEW_REASONING, Max(s.confidence, 0.9))];
        }
      }
    }
    assert ss[..|ss|] == ss;
    if Lower(current) == "new" && !sawPriority {
      normalized := normalized + [Suggestion(Priority, current, "Low", NON_NEW_REASONING, 0.9)];
    }
  }

  method EnforceSecurityPriority(t: Ticket, ss: seq<Suggestion>) returns (normalized: seq<Suggestion>)
    ensures normalized == SecurityPriority(t, ss)
  {
    if ss == [] || !IsSecurity(t, ss) {
      return ss;
    }
    if IsHighEnough(t.priority) {
      return Without(ss, Priority);
    }
    normalized := [];
    var replaced := false;
    for i := 0 to |ss|
      invariant normalized == FirstRewritten(t, ss[..i], Priority)
      invariant replaced <==> Count(ss[..i], Priority) > 0
    {
      assert ss[..i + 1][..i] == ss[..i];
      var s := ss[i];
      if s.field != Priority {
        normalized := normalized + [s];
      } else if !replaced {
        var value := if s.current != "" then s.current else t.priority;
        normalized := normalized + [Suggestion(Priority, value, "High", SECURITY_REASONING, Max(s.confidence, 0.99))];
        replaced := true;
      }
    }
    assert ss[..|ss|] == ss;
    if !replaced {
      normalized := normalized + [Suggestion(Priority, t.priority, "High", SECURITY_REASONING, 0.99)];
    }
  }

  method EnforceReporterHint(t: Ticket, ss: seq<Suggestion>) returns (normalized: seq<Suggestion>)
    ensures normalized == ReporterHint(t, ss)
  {
    if t.hint == "" {
      return ss;
    }
    if Lower(t.hint) == Lower(Strip(t.reporter)) {
      return Without(ss, Reporter);
    }
    normalized := [];
    var replaced := false;
    for i := 0 to |ss|
      invariant normalized == FirstRewritten(t, ss[..i], Reporter)
      invariant replaced <==> Count(ss[..i], Reporter) > 0
    {
      assert ss[..i + 1][..i] == ss[..i];
      var s := ss[i];
      if s.field != Reporter {
        normalized := normalized + [s];
      } else if !replaced {
        normalized := normalized + [Suggestion(Reporter, t.reporter, t.hint, HintReasoning(t.hint),
          Max(s.confidence, 0.99))];
        replaced := true;
      }
    }
    assert ss[..|ss|] == ss;
    if !replaced {
      normalized := normalized + [Suggestion(Reporter, t.reporter, t.hint, HintReasoning(t.hint), 0.99)];
    }
  }

  method EnforceSuggestions(t: Ticket, parsed: seq<Suggestion>) returns (suggestions: seq<Suggestion>)
    ensures suggestions == Enforce(t, parsed)
  {
    suggestions := EnforceNonNewPriority(t, parsed);
    suggestions := EnforceSecurityPriority(t, suggestions);
    suggestions := EnforceReporterHint(t, suggestions);
  }

  // ----- What each pass leaves alone ---------------------------------------------------------------

  lemma KeepAppends(ss: seq<Suggestion>, s: Suggestion, p: Field -> bool)
    ensures Keep(ss + [s], p) == Keep(ss, p) + (if p(s.field) then [s] else [])
  {
    assert (ss + [s])[..|ss|] == ss;
  }

  lemma CountAppends(ss: seq<Suggestion>, s: Suggestion, field: Field)
    ensures Count(ss + [s], field) == Count(ss, field) + (if s.field == field then 1 else 0)
  {
    assert (ss + [s])[..|ss|] == ss;
  }

  lemma {:induction false} OperationalKeeps(t: Ticket, ss: seq<Suggestion>, p: Field -> bool)
    requires !p(Priority)
    ensures Keep(AllOperational(t, ss), p) == Keep(ss, p)
  {
    if ss != [] {
      OperationalKeeps(t, ss[..|ss| - 1], p);
      KeepAppends(AllOperational(t, ss[..|ss| - 1]), Operational(t, ss[|ss| - 1]), p);
    }
  }

  lemma NonNewKeeps(t: Ticket, ss: seq<Suggestion>, p: Field -> bool)
    requires !p(Priority)
    ensures Keep(NonNewPriority(t, ss), p) == Keep(ss, p)
  {
    var xs := AllOperational(t, ss);
    OperationalKeeps(t, ss, p);
    KeepAppends(xs, Suggestion(Priority, Strip(t.priority), "Low", NON_NEW_REASONING, 0.9), p);
    assert xs + [] == xs;
  }

  lemma {:induction false} RewritingKeeps(t: Ticket, ss: seq<Suggestion>, field: Field, p: Field -> bool)
    requires !p(field) && field in {Priority, Reporter}
    ensures Keep(FirstRewritten(t, ss, field), p) == Keep(ss, p)
  {
    if ss != [] {
      var before, s := ss[..|ss| - 1], ss[|ss| - 1];
      var xs := FirstRewritten(t, before, field);
      RewritingKeeps(t, before, field, p);
      if s.field != field {
        KeepAppends(xs, s, p);
      } else if Count(before, field) == 0 {
        KeepAppends(xs, Rewritten(t, field, s), p);
      } else {
        assert xs + [] == xs;
      }
    }
  }

  lemma SingleKeeps(t: Ticket, ss: seq<Suggestion>, field: Field, p: Field -> bool)
    requires !p(field) && field in {Priority, Reporter}
    ensures Keep(Single(t, ss, field), p) == Keep(ss, p)
  {
    var xs := FirstRewritten(t, ss, field);
    RewritingKeeps(t, ss, field, p);
    KeepAppends(xs, Forced(t, field, "", 0.99), p);
    assert xs + [] == xs;
  }

  lemma {:induction false} WithoutKeeps(ss: seq<Suggestion>, field: Field, p: Field -> bool)
    requires !p(field)
    ensures Keep(Without(ss, field), p) == Keep(ss, p)
  {
    if ss != [] {
      var before, s := ss[..|ss| - 1], ss[|ss| - 1];
      WithoutKeeps(before, field, p);
      KeepAppends(Without(before, field), s, p);
      assert Without(ss, field) == Without(before, field) + (if s.field != field then [s] else []);
      assert Without(before, field) + [] == Without(before, field);
    }
  }

  lemma SecurityKeeps(t: Ticket, ss: seq<Suggestion>, p: Field -> bool)
    requires !p(Priority)
    ensures Keep(SecurityPriority(t, ss), p) == Keep(ss, p)
  {
    WithoutKeeps(ss, Priority, p);
    SingleKeeps(t, ss, Priority, p);
  }

  lemma ReporterKeeps(t: Ticket, ss: seq<Suggestion>, p: Field -> bool)
    requires !p(Reporter)
    ensures Keep(ReporterHint(t, ss), p) == Keep(ss, p)
  {
    WithoutKeeps(ss, Reporter, p);
    SingleKeeps(t, ss, Reporter, p);
  }

  /** Suggestions for anything but priority and reporter pass unchanged and in order. */
  lemma OthersPassInOrder(t: Ticket, ss: seq<Suggestion>, p: Field -> bool)
    requires !p(Priority) && !p(Reporter)
    ensures Keep(Enforce(t, ss), p) == Keep(ss, p)
  {
    NonNewKeeps(t, ss, p);
    SecurityKeeps(t, NonNewPriority(t, ss), p);
    ReporterKeeps(t, SecurityPriority(t, NonNewPriority(t, ss)), p);
  }

  lemma {:induction false} KeepCounts(ss: seq<Suggestion>, field: Field)
    ensures |Keep(ss, Is(field))| == Count(ss, field)
    ensures forall s :: s in Keep(ss, Is(field)) <==> s in ss && s.field == field
  {
    if ss != [] {
      KeepCounts(ss[..|ss| - 1], field);
      assert ss == ss[..|ss| - 1] + [ss[|ss| - 1]];
    }
  }

  lemma {:induction false} FirstIsKept(ss: seq<Suggestion>)
    ensures FirstRequestType(ss) ==
      var ks := Keep(ss, Is(RequestType)); if ks == [] then None else Some(ks[0])
  {
    if ss != [] {
      FirstIsKept(ss[..|ss| - 1]);
    }
  }

  // ----- What each pass does, suggestion by suggestion ----------------------------------------------

  ghost predicate NoneOf(ss: seq<Suggestion>, field: Field) {
    forall s :: s in ss ==> s.field != field
  }

  lemma {:induction false} NoneCounts(ss: seq<Suggestion>, field: Field)
    ensures NoneOf(ss, field) <==> Count(ss, field) == 0
  {
    KeepCounts(ss, field);
    assert Count(ss, field) > 0 ==> Keep(ss, Is(field))[0] in Keep(ss, Is(field));
  }

  /** What is kept are the suggestions of the fields asked for, in their order. */
  lemma {:induction false} KeepPicks(ss: seq<Suggestion>, p: Field -> bool) returns (places: seq<nat>)
    ensures Picks(places, ss, Keep(ss, p))
    ensures forall i: nat :: i in places <==> i < |ss| && p(ss[i].field)
  {
    places := [];
    if ss != [] {
      var before, s := ss[..|ss| - 1], ss[|ss| - 1];
      assert ss == before + [s];
      var kept := KeepPicks(before, p);
      var wanted := p(s.field);
      PicksGrow(kept, before, Keep(before, p), s);
      places := if wanted then kept + [|before|] else kept;
      forall i: nat ensures i in places <==> i < |ss| && p(ss[i].field) {
        assert i in kept <==> i < |before| && p(before[i].field);
        assert i in places <==> i in kept || (i == |before| && wanted);
      }
    }
  }

  /** The request type of a triaged ticket is that of the first suggestion of one, or else
      its own. */
  ghost predicate HasType(t: Ticket, ss: seq<Suggestion>, requestType: string) {
    if NoneOf(ss, RequestType) then t.requestType == requestType
    else exists before, s, after ::
      && ss == before + [s] + after && NoneOf(before, RequestType)
      && s.field == RequestType && s.suggested == requestType
  }

  lemma {:induction false} FirstTypeStays(before: seq<Suggestion>, s: Suggestion, after: seq<Suggestion>)
    requires NoneOf(before, RequestType) && s.field == RequestType
    ensures FirstRequestType(before + [s] + after) == Some(s)
  {
    var ss := before + [s] + after;
    if after == [] {
      NoFirstType(before);
      assert ss[..|ss| - 1] == before;
    } else {
      assert ss[..|ss| - 1] == before + [s] + after[..|after| - 1];
      FirstTypeStays(before, s, after[..|after| - 1]);
    }
  }

  lemma {:induction false} NoFirstType(ss: seq<Suggestion>)
    ensures FirstRequestType(ss).None? <==> NoneOf(ss, RequestType)
  {
    if ss != [] {
      var before, s := ss[..|ss| - 1], ss[|ss| - 1];
      assert ss == before + [s];
      NoFirstType(before);
    }
  }

  lemma {:induction false} FirstTypeIsThere(ss: seq<Suggestion>)
      returns (before: seq<Suggestion>, s: Suggestion, after: seq<Suggestion>)
    requires !NoneOf(ss, RequestType)
    ensures ss == before + [s] + after && NoneOf(before, RequestType) && s.field == RequestType
  {
    var front, last := ss[..|ss| - 1], ss[|ss| - 1];
    assert ss == front + [last];
    if NoneOf(front, RequestType) {
      before, s, after := front, last, [];
    } else {
      before, s, after := FirstTypeIsThere(front);
      after := after + [last];
    }
  }

  /** A ticket is taken for a security alert exactly if it has that request type. */
  lemma SecurityIffTyped(t: Ticket, ss: seq<Suggestion>)
    ensures IsSecurity(t, ss) <==> HasType(t, ss, "Security Alert")
  {
    NoFirstType(ss);
    if !NoneOf(ss, RequestType) {
      var before, s, after := FirstTypeIsThere(ss);
      FirstTypeStays(before, s, after);
      forall b, x, a | ss == b + [x] + a && NoneOf(b, RequestType) && x.field == RequestType ensures x == s {
        FirstTypeStays(b, x, a);
      }
    }
  }

  lemma {:induction false} NoneIsFixed(t: Ticket, ss: seq<Suggestion>, field: Field)
    requires Count(ss, field) == 0
    ensures FirstRewritten(t, ss, field) == ss && Without(ss, field) == ss
  {
    if ss != [] {
      NoneIsFixed(t, ss[..|ss| - 1], field);
      assert ss == ss[..|ss| - 1] + [ss[|ss| - 1]];
    }
  }

  lemma RewrittenAppends(t: Ticket, ss: seq<Suggestion>, s: Suggestion, field: Field)
    ensures FirstRewritten(t, ss + [s], field) == FirstRewritten(t, ss, field)
      + (if s.field != field then [s] else if Count(ss, field) == 0 then [Rewritten(t, field, s)] else [])
  {
    assert (ss + [s])[..|ss|] == ss;
  }

  lemma Associates(a: seq<Suggestion>, b: seq<Suggestion>, c: seq<Suggestion>)
    ensures (a + b) + c == a + (b + c)
  {
  }

  lemma {:induction false} RewritesFirst(
    t: Ticket, before: seq<Suggestion>, s: Suggestion, after: seq<Suggestion>, field: Field)
    requires NoneOf(before, field) && s.field == field
    ensures FirstRewritten(t, before + [s] + after, field) ==
      before + [Rewritten(t, field, s)] + Without(after, field)
    ensures Count(before + [s] + after, field) > 0
  {
    var ss := before + [s] + after;
    NoneCounts(before, field);
    if after == [] {
      NoneIsFixed(t, before, field);
      RewrittenAppends(t, before, s, field);
      CountAppends(before, s, field);
      assert ss == before + [s];
    } else {
      var front, last := before + [s] + after[..|after| - 1], after[|after| - 1];
      assert ss == front + [last] && after == after[..|after| - 1] + [last];
      RewritesFirst(t, before, s, after[..|after| - 1], field);
      RewrittenAppends(t, front, last, field);
      CountAppends(front, last, field);
      KeepAppends(after[..|after| - 1], last, IsNot(field));
      Associates(before + [Rewritten(t, field, s)], Without(after[..|after| - 1], field),
        if last.field != field then [last] else []);
    }
  }

  /** In a security alert not yet at High or Highest, the first priority suggestion is put at
      High in its place and later ones go; if there is none, one is added at the end. */
  lemma SecurityPassRewrites(t: Ticket, before: seq<Suggestion>, s: Suggestion, after: seq<Suggestion>)
    requires NoneOf(before, Priority) && s.field == Priority
    requires HasType(t, before + [s] + after, "Security Alert") && t.priority != "High" && t.priority != "Highest"
    ensures SecurityPriority(t, before + [s] + after) ==
      before
      + [Suggestion(Priority, if s.current != "" then s.current else t.priority, "High", SECURITY_REASONING,
           if s.confidence < 0.99 then 0.99 else s.confidence)]
      + Without(after, Priority)
  {
    SecurityIffTyped(t, before + [s] + after);
    RewritesFirst(t, before, s, after, Priority);
  }

  lemma SecurityPassAdds(t: Ticket, ss: seq<Suggestion>)
    requires ss != [] && NoneOf(ss, Priority)
    requires HasType(t, ss, "Security Alert") && t.priority != "High" && t.priority != "Highest"
    ensures SecurityPriority(t, ss) == ss + [Suggestion(Priority, t.priority, "High", SECURITY_REASONING, 0.99)]
  {
    SecurityIffTyped(t, ss);
    NoneCounts(ss, Priority);
    NoneIsFixed(t, ss, Priority);
  }

  /** If the description names another reporter, the first reporter suggestion names them in
      its place and later ones go; if there is none, one is added at the end. */
  lemma ReporterPassRewrites(t: Ticket, before: seq<Suggestion>, s: Suggestion, after: seq<Suggestion>)
    requires NoneOf(before, Reporter) && s.field == Reporter
    requires t.hint != "" && Lower(t.hint) != Lower(Strip(t.reporter))
    ensures ReporterHint(t, before + [s] + after) ==
      before
      + [Suggestion(Reporter, t.reporter, t.hint,
           "Ticket description explicitly says \"Ticket Created By: " + t.hint + "\".",
           if s.confidence < 0.99 then 0.99 else s.confidence)]
      + Without(after, Reporter)
  {
    RewritesFirst(t, before, s, after, Reporter);
  }

  lemma ReporterPassAdds(t: Ticket, ss: seq<Suggestion>)
    requires NoneOf(ss, Reporter) && t.hint != "" && Lower(t.hint) != Lower(Strip(t.reporter))
    ensures ReporterHint(t, ss) == ss
      + [Suggestion(Reporter, t.reporter, t.hint,
           "Ticket description explicitly says \"Ticket Created By: " + t.hint + "\".", 0.99)]
  {
    NoneCounts(ss, Reporter);
    NoneIsFixed(t, ss, Reporter);
  }

  /** Blanks around New and its case do not matter; any other priority loses its blanks only. */
  lemma NewBecomesLow(left: string, core: string, right: string)
    requires forall c :: c in left || c in right ==> IsSpace(c)
    requires core != [] && Trimmed(core, Blanks)
    ensures NormalizePriority(left + core + right) == if Lower(core) == "new" then "Low" else core
  {
    TrimTakesEnds(left, core, right, Blanks);
  }

  lemma {:induction false} OperationalAt(t: Ticket, ss: seq<Suggestion>, i: nat)
    requires i < |ss|
    ensures |AllOperational(t, ss)| == |ss| && AllOperational(t, ss)[i] == Operational(t, ss[i])
  {
    if i < |ss| - 1 {
      OperationalAt(t, ss[..|ss| - 1], i);
    } else if |ss| > 1 {
      OperationalAt(t, ss[..|ss| - 1], 0);
    }
  }

  /** The first pass changes only priority suggestions that are New or have blanks around, each
      in its place, and adds one at the end to a ticket at New without any. */
  lemma NonNewPassAt(t: Ticket, ss: seq<Suggestion>, i: nat)
    requires i < |ss|
    ensures |NonNewPriority(t, ss)| >= |ss|
    ensures var s, after := ss[i], NonNewPriority(t, ss)[i];
      var target := if Lower(Strip(s.suggested)) == "new" then "Low" else Strip(s.suggested);
      if s.field != Priority || target == s.suggested then after == s
      else after == Suggestion(Priority, if s.current != "" then s.current else Strip(t.priority), target,
        NON_NEW_REASONING, if s.confidence < 0.9 then 0.9 else s.confidence)
    ensures NonNewPriority(t, ss)[|ss|..] ==
      if Lower(Strip(t.priority)) == "new" && NoneOf(ss, Priority)
      then [Suggestion(Priority, Strip(t.priority), "Low", NON_NEW_REASONING, 0.9)] else []
  {
    OperationalAt(t, ss, i);
    NoneCounts(ss, Priority);
  }

  // ----- What each pass enforces -------------------------------------------------------------------

  predicate IsNormal(value: string) {
    NormalizePriority(value) == value
  }

  lemma NormalizeIsNormal(value: string)
    ensures IsNormal(NormalizePriority(value))
    ensures IsNormal(value) ==> !IsNew(value)
    ensures IsNormal("High") && !IsNew("High") && !IsNew("Highest")
  {
    var a, b := TrimShape(value, Blanks);
    TrimmedIsFixed(Strip(value), Blanks);
    TrimmedIsFixed("Low", Blanks);
    TrimmedIsFixed("High", Blanks);
    TrimmedIsFixed("Highest", Blanks);
    assert Lower("Low")[0] == 'l' && Lower("High")[0] == 'h' && Lower("Highest")[0] == 'h';
  }

  predicate PrioritiesAreNormal(ss: seq<Suggestion>) {
    forall s :: s in ss && s.field == Priority ==> IsNormal(s.suggested)
  }

  predicate AllForced(t: Ticket, ss: seq<Suggestion>, field: Field) {
    forall s :: s in ss && s.field == field ==> Rewritten(t, field, s) == s
  }

  lemma {:induction false} OperationalIsNormal(t: Ticket, ss: seq<Suggestion>)
    ensures PrioritiesAreNormal(AllOperational(t, ss))
    ensures Count(AllOperational(t, ss), Priority) == Count(ss, Priority)
  {
    if ss != [] {
      var s := ss[|ss| - 1];
      OperationalIsNormal(t, ss[..|ss| - 1]);
      NormalizeIsNormal(s.suggested);
      CountAppends(AllOperational(t, ss[..|ss| - 1]), Operational(t, s), Priority);
    }
  }

  lemma NonNewIsNormal(t: Ticket, ss: seq<Suggestion>)
    ensures PrioritiesAreNormal(NonNewPriority(t, ss))
    ensures IsNew(t.priority) ==> Count(NonNewPriority(t, ss), Priority) > 0
    ensures NonNewPriority(t, ss) == [] <==> ss == [] && !IsNew(t.priority)
  {
    OperationalIsNormal(t, ss);
    LowIsNormal();
    var xs := AllOperational(t, ss);
    CountAppends(xs, Suggestion(Priority, Strip(t.priority), "Low", NON_NEW_REASONING, 0.9), Priority);
    assert xs + [] == xs;
  }

  lemma LowIsNormal()
    ensures IsNormal("Low")
  {
    TrimmedIsFixed("Low", Blanks);
    assert Lower("Low")[0] == 'l';
  }

  lemma {:induction false} NormalIsFixed(t: Ticket, ss: seq<Suggestion>)
    requires PrioritiesAreNormal(ss)
    ensures AllOperational(t, ss) == ss
  {
    if ss != [] {
      NormalIsFixed(t, ss[..|ss| - 1]);
      assert ss == ss[..|ss| - 1] + [ss[|ss| - 1]];
    }
  }

  lemma ForcingAgain(t: Ticket, field: Field, current: string, confidence: real)
    requires field in {Priority, Reporter} && confidence >= 0.99
    ensures var s := Forced(t, field, current, confidence); s.field == field && Rewritten(t, field, s) == s
  {
  }

  lemma AllForcedAppends(t: Ticket, ss: seq<Suggestion>, s: Suggestion, field: Field)
    requires AllForced(t, ss, field) && (s.field == field ==> Rewritten(t, field, s) == s)
    ensures AllForced(t, ss + [s], field)
  {
  }

  lemma {:induction false} RewritingForces(t: Ticket, ss: seq<Suggestion>, field: Field)
    requires field in {Priority, Reporter}
    ensures Count(FirstRewritten(t, ss, field), field) == if Count(ss, field) == 0 then 0 else 1
    ensures AllForced(t, FirstRewritten(t, ss, field), field)
  {
    if ss != [] {
      var before, s := ss[..|ss| - 1], ss[|ss| - 1];
      var xs := FirstRewritten(t, before, field);
      RewritingForces(t, before, field);
      if s.field != field {
        CountAppends(xs, s, field);
        AllForcedAppends(t, xs, s, field);
      } else if Count(before, field) == 0 {
        CountAppends(xs, Rewritten(t, field, s), field);
        ForcingAgain(t, field, s.current, Max(s.confidence, 0.99));
        AllForcedAppends(t, xs, Rewritten(t, field, s), field);
      } else {
        assert xs + [] == xs;
      }
    }
  }

  lemma SingleForces(t: Ticket, ss: seq<Suggestion>, field: Field)
    requires field in {Priority, Reporter}
    ensures Count(Single(t, ss, field), field) == 1
    ensures AllForced(t, Single(t, ss, field), field)
  {
    var xs := FirstRewritten(t, ss, field);
    RewritingForces(t, ss, field);
    CountAppends(xs, Forced(t, field, "", 0.99), field);
    assert xs + [] == xs;
  }

  lemma {:induction false} SingleIsFixed(t: Ticket, ss: seq<Suggestion>, field: Field)
    requires Count(ss, field) == 1 && AllForced(t, ss, field)
    ensures Single(t, ss, field) == ss
  {
    var before, s := ss[..|ss| - 1], ss[|ss| - 1];
    assert ss == before + [s];
    if s.field == field {
      NoneIsFixed(t, before, field);
    } else {
      SingleIsFixed(t, before, field);
    }
  }

  /** Keeping only one field, no other field counts. */
  lemma SameFieldFromKeep(xs: seq<Suggestion>, ys: seq<Suggestion>, field: Field)
    requires Keep(xs, Is(field)) == Keep(ys, Is(field))
    ensures Count(xs, field) == Count(ys, field)
    ensures forall s: Suggestion :: s.field == field ==> (s in xs <==> s in ys)
  {
    KeepCounts(xs, field);
    KeepCounts(ys, field);
  }

  lemma {:induction false} WithoutCounts(ss: seq<Suggestion>, field: Field)
    ensures Count(Without(ss, field), field) == 0
  {
    if ss != [] {
      var xs := Without(ss[..|ss| - 1], field);
      WithoutCounts(ss[..|ss| - 1], field);
      CountAppends(xs, ss[|ss| - 1], field);
      assert xs + [] == xs;
    }
  }

  // ----- The three passes together -----------------------------------------------------------------

  /** The reporter pass and the security pass do not meet. */
  lemma ReporterLeavesPriorities(t: Ticket, ss: seq<Suggestion>)
    ensures Count(ReporterHint(t, ss), Priority) == Count(ss, Priority)
    ensures forall s: Suggestion :: s.field == Priority ==> (s in ReporterHint(t, ss) <==> s in ss)
    ensures IsSecurity(t, ReporterHint(t, ss)) == IsSecurity(t, ss)
  {
    ReporterKeeps(t, ss, Is(Priority));
    SameFieldFromKeep(ReporterHint(t, ss), ss, Priority);
    ReporterKeeps(t, ss, Is(RequestType));
    FirstIsKept(ss);
    FirstIsKept(ReporterHint(t, ss));
  }

  lemma SecurityLeavesRequestType(t: Ticket, ss: seq<Suggestion>)
    ensures IsSecurity(t, SecurityPriority(t, ss)) == IsSecurity(t, ss)
    ensures IsSecurity(t, NonNewPriority(t, ss)) == IsSecurity(t, ss)
  {
    SecurityKeeps(t, ss, Is(RequestType));
    NonNewKeeps(t, ss, Is(RequestType));
    FirstIsKept(ss);
    FirstIsKept(SecurityPriority(t, ss));
    FirstIsKept(NonNewPriority(t, ss));
  }

  /** What the security pass guarantees of a list that holds something. */
  lemma SecurityForces(t: Ticket, ss: seq<Suggestion>)
    requires ss != [] && IsSecurity(t, ss)
    ensures var xs := SecurityPriority(t, ss);
      if IsHighEnough(t.priority) then Count(xs, Priority) == 0
      else Count(xs, Priority) == 1 && AllForced(t, xs, Priority)
  {
    if IsHighEnough(t.priority) {
      WithoutCounts(ss, Priority);
    } else {
      SingleForces(t, ss, Priority);
    }
  }

  /** A ticket classed as a security alert has one priority suggestion, High; or none if it
      is High or Highest already. */
  lemma SecurityTicketIsHigh(t: Ticket, ss: seq<Suggestion>)
    requires ss != [] && IsSecurity(t, ss)
    ensures Count(Enforce(t, ss), Priority) == if t.priority == "High" || t.priority == "Highest" then 0 else 1
    ensures forall s :: s in Enforce(t, ss) && s.field == Priority ==> s.suggested == "High"
  {
    var xs := NonNewPriority(t, ss);
    NonNewIsNormal(t, ss);
    SecurityLeavesRequestType(t, ss);
    SecurityForces(t, xs);
    ReporterLeavesPriorities(t, SecurityPriority(t, xs));
    KeepCounts(SecurityPriority(t, xs), Priority);
  }

  lemma SecurityIsNormal(t: Ticket, ss: seq<Suggestion>)
    requires PrioritiesAreNormal(ss)
    ensures PrioritiesAreNormal(SecurityPriority(t, ss))
  {
    var xs := SecurityPriority(t, ss);
    if ss != [] && IsSecurity(t, ss) {
      SecurityForces(t, ss);
      NormalizeIsNormal("High");
      if IsHighEnough(t.priority) {
        KeepCounts(xs, Priority);
      }
    }
  }

  /** No answer, empty or not, leaves a priority suggestion of New or one with blanks around. */
  lemma NoNewPriorityIsLeft(t: Ticket, ss: seq<Suggestion>)
    ensures PrioritiesAreNormal(Enforce(t, ss))
    ensures forall s :: s in Enforce(t, ss) && s.field == Priority ==> !IsNew(s.suggested)
  {
    var xs := NonNewPriority(t, ss);
    NonNewIsNormal(t, ss);
    SecurityIsNormal(t, xs);
    ReporterLeavesPriorities(t, SecurityPriority(t, xs));
    forall s | s in Enforce(t, ss) && s.field == Priority ensures !IsNew(s.suggested) {
      NormalizeIsNormal(s.suggested);
    }
  }

  /** A ticket that stands at New always gets a priority suggestion. */
  lemma NewTicketGetsPriority(t: Ticket, ss: seq<Suggestion>)
    requires IsNew(t.priority)
    ensures Count(Enforce(t, ss), Priority) > 0
  {
    var xs := NonNewPriority(t, ss);
    NonNewIsNormal(t, ss);
    if IsSecurity(t, xs) {
      SecurityForces(t, xs);
      NormalizeIsNormal("High");
    }
    ReporterLeavesPriorities(t, SecurityPriority(t, xs));
  }

  /** The reporter suggestions follow the description: none if the named reporter is the
      current one, exactly one otherwise, which names them. */
  lemma ReporterFollowsHint(t: Ticket, ss: seq<Suggestion>)
    requires t.hint != ""
    ensures Count(Enforce(t, ss), Reporter) == if Lower(t.hint) == Lower(Strip(t.reporter)) then 0 else 1
    ensures forall s :: s in Enforce(t, ss) && s.field == Reporter ==> s.suggested == t.hint
  {
    var xs := SecurityPriority(t, NonNewPriority(t, ss));
    WithoutCounts(xs, Reporter);
    SingleForces(t, xs, Reporter);
    KeepCounts(Enforce(t, ss), Reporter);
  }

  /** What becomes of one priority suggestion of a ticket that is no security alert. */
  predicate Follows(before: Suggestion, after: Suggestion) {
    && after.suggested == (if IsNew(before.suggested) then "Low" else Strip(before.suggested))
    && after.confidence >= before.confidence
    && (after.suggested == before.suggested ==> after == before)
  }

  predicate FollowInOrder(before: seq<Suggestion>, after: seq<Suggestion>) {
    |after| == |before| && forall i :: 0 <= i < |after| ==> Follows(before[i], after[i])
  }

  lemma {:induction false} OperationalFollows(t: Ticket, ss: seq<Suggestion>)
    ensures FollowInOrder(Keep(ss, Is(Priority)), Keep(AllOperational(t, ss), Is(Priority)))
  {
    if ss != [] {
      var before, s := ss[..|ss| - 1], ss[|ss| - 1];
      OperationalFollows(t, before);
      KeepAppends(AllOperational(t, before), Operational(t, s), Is(Priority));
      assert s.field == Priority ==> Follows(s, Operational(t, s));
    }
  }

  /** For other tickets the priority suggestions stay, in order and number, with New turned
      into Low; one is added only to a ticket that stands at New and has none. */
  lemma OtherTicketsFollowAnswer(t: Ticket, ss: seq<Suggestion>)
    requires !IsSecurity(t, ss)
    ensures var given, left := Keep(ss, Is(Priority)), Keep(Enforce(t, ss), Is(Priority));
      if given == [] && IsNew(t.priority) then |left| == 1 && left[0].suggested == "Low"
      else FollowInOrder(given, left)
  {
    var xs := NonNewPriority(t, ss);
    SecurityLeavesRequestType(t, ss);
    ReporterKeeps(t, xs, Is(Priority));
    OperationalFollows(t, ss);
    KeepCounts(ss, Priority);
    var added := Suggestion(Priority, Strip(t.priority), "Low", NON_NEW_REASONING, 0.9);
    KeepAppends(AllOperational(t, ss), added, Is(Priority));
    assert AllOperational(t, ss) + [] == AllOperational(t, ss);
  }

  lemma ReporterIsFixed(t: Ticket, ss: seq<Suggestion>)
    ensures ReporterHint(t, ReporterHint(t, ss)) == ReporterHint(t, ss)
  {
    if t.hint != "" {
      if ReporterIsHinted(t) {
        WithoutCounts(ss, Reporter);
        NoneIsFixed(t, Without(ss, Reporter), Reporter);
      } else {
        SingleForces(t, ss, Reporter);
        SingleIsFixed(t, Single(t, ss, Reporter), Reporter);
      }
    }
  }

  lemma SecurityIsFixed(t: Ticket, ss: seq<Suggestion>)
    requires ss != []
    ensures var xs := ReporterHint(t, SecurityPriority(t, ss)); SecurityPriority(t, xs) == xs
  {
    var ys := SecurityPriority(t, ss);
    var xs := ReporterHint(t, ys);
    ReporterLeavesPriorities(t, ys);
    SecurityLeavesRequestType(t, ss);
    if IsSecurity(t, ss) {
      SecurityForces(t, ss);
      if IsHighEnough(t.priority) {
        NoneIsFixed(t, xs, Priority);
      } else {
        SingleIsFixed(t, xs, Priority);
      }
    }
  }

  lemma NonNewIsFixed(t: Ticket, ss: seq<Suggestion>)
    ensures NonNewPriority(t, Enforce(t, ss)) == Enforce(t, ss)
  {
    var xs := Enforce(t, ss);
    NoNewPriorityIsLeft(t, ss);
    NormalIsFixed(t, xs);
    if IsNew(t.priority) {
      NewTicketGetsPriority(t, ss);
    }
    assert xs + [] == xs;
  }

  /** Enforcing twice is enforcing once, on every list that holds something. */
  lemma EnforceIsIdempotent(t: Ticket, ss: seq<Suggestion>)
    requires ss != []
    ensures Enforce(t, Enforce(t, ss)) == Enforce(t, ss)
  {
    NonNewIsNormal(t, ss);
    NonNewIsFixed(t, ss);
    SecurityIsFixed(t, NonNewPriority(t, ss));
    ReporterIsFixed(t, SecurityPriority(t, NonNewPriority(t, ss)));
  }

  /** The reporter pass alone acts on the empty answer to a ticket that is not at New. */
  lemma HintOnEmptyAnswer(t: Ticket)
    requires !IsNew(t.priority) && t.hint != "" && !ReporterIsHinted(t)
    ensures var xs := [Forced(t, Reporter, "", 0.99)];
      && Enforce(t, []) == xs && Count(xs, Priority) == 0 && FirstRequestType(xs) == None
      && NonNewPriority(t, xs) == xs && ReporterHint(t, xs) == xs
  {
    var xs := [Forced(t, Reporter, "", 0.99)];
    NonNewIsNormal(t, []);
    NonNewIsFixed(t, []);
    ReporterIsFixed(t, []);
    assert Enforce(t, []) == xs;
    assert xs[..0] == [];
  }

  /** The security pass would then add a priority, unless there is no call for it. */
  lemma AlertAfterHint(t: Ticket)
    requires !IsNew(t.priority) && t.hint != "" && !ReporterIsHinted(t)
    ensures Enforce(t, Enforce(t, [])) == Enforce(t, []) <==>
      t.requestType != SECURITY_ALERT || IsHighEnough(t.priority)
  {
    var xs := [Forced(t, Reporter, "", 0.99)];
    HintOnEmptyAnswer(t);
    if t.requestType == SECURITY_ALERT {
      if IsHighEnough(t.priority) {
        NoneIsFixed(t, xs, Priority);
      } else {
        SingleForces(t, xs, Priority);
        ReporterLeavesPriorities(t, Single(t, xs, Priority));
      }
    }
  }

  /** On an empty answer it is not: the security pass leaves an empty list alone, and the
      reporter pass may then add the suggestion that makes it act. It is exactly this case
      that fails. */
  lemma EmptyAnswerIsIdempotentIff(t: Ticket)
    ensures Enforce(t, Enforce(t, [])) == Enforce(t, []) <==>
      || IsNew(t.priority)
      || t.requestType != SECURITY_ALERT
      || IsHighEnough(t.priority)
      || t.hint == ""
      || ReporterIsHinted(t)
  {
    if IsNew(t.priority) {
      NonNewIsNormal(t, []);
      NonNewIsFixed(t, []);
      SecurityIsFixed(t, NonNewPriority(t, []));
      ReporterIsFixed(t, SecurityPriority(t, NonNewPriority(t, [])));
    } else if t.hint != "" && !ReporterIsHinted(t) {
      AlertAfterHint(t);
    } else {
      NonNewIsNormal(t, []);
    }
  }
}
