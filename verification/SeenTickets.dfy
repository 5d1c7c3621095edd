/** New-ticket alerts. */
module SeenTickets {
  import opened Options
  import opened Sequences
  import opened Text

  // Which tickets a rule has already announced is kept in one table, read when a check begins
  // and written when its email has gone out; between the two, other checks and re-baselining
  // of the same rule may run.

  const DAY := 24 * 3600 * 1_000_000

  datatype Ticket = Ticket(
    key: string, open: bool, created: Option<int>, priority: string, assignee: string, requestType: string)

  datatype Filters = Filters(
    scope: string, newOnly: bool, priorities: seq<string>, assignees: seq<string>, requestTypes: seq<string>)

  datatype Trigger = NewTicket | OtherTrigger | UnknownTrigger

  /** A rule as it was read from the store, with the last run it had then. */
  datatype Rule = Rule(id: int, trigger: Trigger, filters: Filters, recipients: string, lastRun: Option<int>)

  datatype Row = Row(rule: int, trigger: Trigger, keys: seq<string>, sent: bool)

  // ----- Matching ------------------------------------------------------------------------------

  predicate Allows(allowed: seq<string>, value: string) {
    exists i :: 0 <= i < |allowed| && Lower(allowed[i]) == value
  }

  predicate MatchesFilters(t: Ticket, f: Filters) {
    var priority, assignee, requestType := Lower(t.priority), Lower(t.assignee), Lower(t.requestType);
    && (f.priorities == [] || (priority != "" && Allows(f.priorities, priority)))
    && (f.assignees == [] || Allows(f.assignees, if assignee != "" then assignee else "unassigned"))
    && (f.requestTypes == [] || (requestType != "" && Allows(f.requestTypes, requestType)))
  }

  function Cutoff(rule: Rule, now: int): int {
    if rule.lastRun.Some? then rule.lastRun.value else now - DAY
  }

  predicate InScope(t: Ticket, rule: Rule, now: int) {
    && (rule.filters.scope == "" || rule.filters.scope == "open" ==> t.open)
    && (rule.filters.newOnly ==> t.created.Some? && t.created.value >= Cutoff(rule, now))
  }

  predicate Accepts(t: Ticket, rule: Rule, now: int) {
    InScope(t, rule, now) && MatchesFilters(t, rule.filters)
  }

  /** The evaluation of a new-ticket rule, which keeps the order of the tickets. */
  function Evaluate(rule: Rule, tickets: seq<Ticket>, now: int): seq<Ticket> {
    if tickets == [] then []
    else
      var last := tickets[|tickets| - 1];
      Evaluate(rule, tickets[..|tickets| - 1], now) + (if Accepts(last, rule, now) then [last] else [])
  }

  /** The newest copy of a ticket in a reply, or the ticket itself. */
  function Latest(t: Ticket, reply: seq<Ticket>): Ticket {
    if reply == [] || t.key == "" then t
    else if reply[|reply| - 1].key == t.key then reply[|reply| - 1]
    else Latest(t, reply[..|reply| - 1])
  }

  /** A failed refresh keeps the tickets as they are. */
  function Refreshed(tickets: seq<Ticket>, reply: Option<seq<Ticket>>): seq<Ticket> {
    if reply.None? then tickets else seq(|tickets|, i requires 0 <= i < |tickets| => Latest(tickets[i], reply.value))
  }

  type Pairs = set<(int, string)>

  function Unseen(seen: Pairs, id: int, tickets: seq<Ticket>): seq<Ticket> {
    if tickets == [] then []
    else
      var last := tickets[|tickets| - 1];
      Unseen(seen, id, tickets[..|tickets| - 1]) + (if (id, last.key) !in seen then [last] else [])
  }

  /** What the world answers to one check: the refreshed tickets or a failure, the time of
      the second evaluation, and the matches if the trigger is another one. */
  datatype Reply = Reply(refreshed: Option<seq<Ticket>>, recheck: int, others: seq<Ticket>)

  function RuleMatches(seen: Pairs, rule: Rule, tickets: seq<Ticket>, now: int, reply: Reply): seq<Ticket>
    requires !rule.trigger.UnknownTrigger?
  {
    if rule.trigger.OtherTrigger? then reply.others
    else Unseen(seen, rule.id, Evaluate(rule, Refreshed(Evaluate(rule, tickets, now), reply.refreshed), reply.recheck))
  }

  /** An evaluation picks the accepted tickets, in their order. */
  lemma {:induction false} EvaluatePicks(rule: Rule, tickets: seq<Ticket>, now: int) returns (places: seq<nat>)
    ensures Picks(places, tickets, Evaluate(rule, tickets, now))
    ensures forall i: nat :: i in places <==> i < |tickets| && Accepts(tickets[i], rule, now)
  {
    places := [];
    if tickets != [] {
      var front, last := tickets[..|tickets| - 1], tickets[|tickets| - 1];
      assert tickets == front + [last];
      var before := EvaluatePicks(rule, front, now);
      var accepted := Accepts(last, rule, now);
      PicksGrow(before, front, Evaluate(rule, front, now), last);
      places := if accepted then before + [|front|] else before;
      forall i: nat ensures i in places <==> i < |tickets| && Accepts(tickets[i], rule, now) {
        assert i in before <==> i < |front| && Accepts(front[i], rule, now);
        assert i in places <==> i in before || (i == |front| && accepted);
      }
    }
  }

  /** The filter for new tickets picks the unseen ones, in their order. */
  lemma {:induction false} UnseenPicks(seen: Pairs, id: int, tickets: seq<Ticket>) returns (places: seq<nat>)
    ensures Picks(places, tickets, Unseen(seen, id, tickets))
    ensures forall i: nat :: i in places <==> i < |tickets| && (id, tickets[i].key) !in seen
  {
    places := [];
    if tickets != [] {
      var front, last := tickets[..|tickets| - 1], tickets[|tickets| - 1];
      assert tickets == front + [last];
      var before := UnseenPicks(seen, id, front);
      var unseen := (id, last.key) !in seen;
      PicksGrow(before, front, Unseen(seen, id, front), last);
      places := if unseen then before + [|front|] else before;
      forall i: nat ensures i in places <==> i < |tickets| && (id, tickets[i].key) !in seen {
        assert i in before <==> i < |front| && (id, front[i].key) !in seen;
        assert i in places <==> i in before || (i == |front| && unseen);
      }
    }
  }

  lemma EvaluateKeeps(rule: Rule, tickets: seq<Ticket>, now: int, t: Ticket)
    ensures t in Evaluate(rule, tickets, now) <==> t in tickets && Accepts(t, rule, now)
  {
    var places := EvaluatePicks(rule, tickets, now);
    if i :| 0 <= i < |tickets| && tickets[i] == t && Accepts(t, rule, now) {
      assert i in places;
    }
    if k :| 0 <= k < |places| && Evaluate(rule, tickets, now)[k] == t {
      assert places[k] in places;
    }
  }

  lemma UnseenKeeps(seen: Pairs, id: int, tickets: seq<Ticket>, t: Ticket)
    ensures t in Unseen(seen, id, tickets) <==> t in tickets && (id, t.key) !in seen
  {
    var places := UnseenPicks(seen, id, tickets);
    if i :| 0 <= i < |tickets| && tickets[i] == t && (id, t.key) !in seen {
      assert i in places;
    }
    if k :| 0 <= k < |places| && Unseen(seen, id, tickets)[k] == t {
      assert places[k] in places;
    }
  }

  ghost predicate LastCopy(copies: seq<Ticket>, key: string, i: nat) {
    && i < |copies| && copies[i].key == key
    && forall j :: i < j < |copies| ==> copies[j].key != key
  }

  /** A refresh turns a ticket into the last copy under its key; without a key, without a
      copy, and when the refresh fails, the ticket stays as it is. */
  ghost predicate RefreshedTo(t: Ticket, reply: Option<seq<Ticket>>, u: Ticket) {
    if reply.Some? && t.key != "" && exists c :: c in reply.value && c.key == t.key
    then exists i: nat :: LastCopy(reply.value, t.key, i) && u == reply.value[i]
    else u == t
  }

  lemma {:induction false} LatestIsLastCopy(t: Ticket, copies: seq<Ticket>)
    ensures RefreshedTo(t, Some(copies), Latest(t, copies))
  {
    if copies != [] && t.key != "" {
      var front, last := copies[..|copies| - 1], copies[|copies| - 1];
      assert copies == front + [last];
      if last.key == t.key {
        assert LastCopy(copies, t.key, |front|);
      } else {
        LatestIsLastCopy(t, front);
        if i: nat :| LastCopy(front, t.key, i) && Latest(t, front) == front[i] {
          assert LastCopy(copies, t.key, i);
        }
      }
    }
  }

  /** A refresh has one result for each ticket, in its place. */
  lemma RefreshIsExact(tickets: seq<Ticket>, reply: Option<seq<Ticket>>, i: nat, u: Ticket)
    requires i < |tickets|
    ensures |Refreshed(tickets, reply)| == |tickets|
    ensures Refreshed(tickets, reply)[i] == u <==> RefreshedTo(tickets[i], reply, u)
  {
    if reply.Some? {
      LatestIsLastCopy(tickets[i], reply.value);
      if m: nat :| LastCopy(reply.value, tickets[i].key, m) && u == reply.value[m] {
        OneLastCopy(reply.value, tickets[i].key, m);
      }
    }
  }

  lemma OneLastCopy(copies: seq<Ticket>, key: string, i: nat)
    requires LastCopy(copies, key, i)
    ensures forall j: nat :: LastCopy(copies, key, j) ==> j == i
  {
  }

  /** When a rule accepts a ticket, with everything written out. */
  lemma AcceptedExactly(t: Ticket, rule: Rule, now: int)
    ensures Accepts(t, rule, now) <==>
      && (t.open || rule.filters.scope !in ["", "open"])
      && (rule.filters.newOnly ==> t.created.Some?)
      && (rule.filters.newOnly ==>
            if rule.lastRun.Some? then t.created.value >= rule.lastRun.value
            else t.created.value >= now - 86_400_000_000)
      && (rule.filters.priorities != [] ==>
            t.priority != "" && exists p :: p in rule.filters.priorities && Lower(p) == Lower(t.priority))
      && (rule.filters.assignees != [] ==>
            exists a :: a in rule.filters.assignees
              && Lower(a) == if t.assignee == "" then "unassigned" else Lower(t.assignee))
      && (rule.filters.requestTypes != [] ==>
            t.requestType != "" && exists r :: r in rule.filters.requestTypes && Lower(r) == Lower(t.requestType))
  {
    AllowedExactly(rule.filters.priorities, Lower(t.priority));
    AllowedExactly(rule.filters.assignees, if t.assignee == "" then "unassigned" else Lower(t.assignee));
    AllowedExactly(rule.filters.requestTypes, Lower(t.requestType));
    BlankIsLowerBlank(t.priority);
    BlankIsLowerBlank(t.assignee);
    BlankIsLowerBlank(t.requestType);
  }

  lemma AllowedExactly(allowed: seq<string>, value: string)
    ensures Allows(allowed, value) <==> exists a :: a in allowed && Lower(a) == value
  {
  }

  lemma BlankIsLowerBlank(s: string)
    ensures Lower(s) == "" <==> s == ""
  {
  }

  /** A ticket is announced exactly when it is what the refresh makes of an accepted ticket,
      is still accepted, and has not been seen. */
  lemma MatchedExactly(seen: Pairs, rule: Rule, tickets: seq<Ticket>, now: int, reply: Reply, t: Ticket)
    requires rule.trigger.NewTicket?
    ensures t in RuleMatches(seen, rule, tickets, now, reply) <==>
      && Accepts(t, rule, reply.recheck)
      && (rule.id, t.key) !in seen
      && exists u :: u in tickets && Accepts(u, rule, now) && RefreshedTo(u, reply.refreshed, t)
  {
    var first := Evaluate(rule, tickets, now);
    var second := Refreshed(first, reply.refreshed);
    UnseenKeeps(seen, rule.id, Evaluate(rule, second, reply.recheck), t);
    EvaluateKeeps(rule, second, reply.recheck, t);
    if t in second {
      var i :| 0 <= i < |second| && second[i] == t;
      EvaluateKeeps(rule, tickets, now, first[i]);
      RefreshIsExact(first, reply.refreshed, i, t);
    }
    if u :| u in tickets && Accepts(u, rule, now) && RefreshedTo(u, reply.refreshed, t) {
      EvaluateKeeps(rule, tickets, now, u);
      var i :| 0 <= i < |first| && first[i] == u;
      RefreshIsExact(first, reply.refreshed, i, t);
    }
  }

  function Keys(tickets: seq<Ticket>): seq<string> {
    seq(|tickets|, i requires 0 <= i < |tickets| => tickets[i].key)
  }

  /** Blank keys and repetitions are dropped before keys are written. */
  function NonBlank(keys: seq<string>): set<string> {
    set k | k in keys && k != ""
  }

  function Marked(id: int, keys: seq<string>): Pairs {
    set k | k in NonBlank(keys) :: (id, k)
  }

  predicate HasRecipients(recipients: string) {
    exists i :: 0 <= i < |recipients| && recipients[i] != ',' && !IsSpace(recipients[i])
  }

  lemma {:induction false} RecipientInEither(left: string, right: string)
    ensures HasRecipients(left + right) <==> HasRecipients(left) || HasRecipients(right)
  {
    var all := left + right;
    if i :| 0 <= i < |right| && right[i] != ',' && !IsSpace(right[i]) {
      assert all[|left| + i] == right[i];
    }
    if i :| 0 <= i < |left| && left[i] != ',' && !IsSpace(left[i]) {
      assert all[i] == left[i];
    }
  }

  /** A recipient is a non-blank part of the list that commas separate. */
  lemma RecipientsExactly(part: string, rest: string)
    requires ',' !in part
    ensures HasRecipients(part) <==> Strip(part) != ""
    ensures HasRecipients(part + "," + rest) <==> Strip(part) != "" || HasRecipients(rest)
  {
    RecipientInEither(part + ",", rest);
    RecipientInEither(part, ",");
    TrimmedAway(part, Blanks);
    assert HasRecipients(part) ==> exists c :: c in part && !Cuts(Blanks, c) by {
      if i :| 0 <= i < |part| && part[i] != ',' && !IsSpace(part[i]) {
        assert part[i] in part;
      }
    }
    if c :| c in part && !Cuts(Blanks, c) {
      var i :| 0 <= i < |part| && part[i] == c;
      assert part[i] != ',';
    }
  }

  // ----- The protocol ----------------------------------------------------------------------------

  /** An email that is being sent; `began` is the step at which its tickets were chosen. */
  datatype Flight = Flight(rule: Rule, tickets: seq<Ticket>, began: nat)

  datatype Stamp = Stamp(began: nat, ended: nat)

  /** The last baseline of a rule, and the step that wrote it. */
  datatype Base = Base(keys: set<string>, at: nat)

  /** The history table, with when each row's check began and ended and each rule's last
      baseline beside it. */
  datatype Log = Log(history: seq<Row>, stamps: seq<Stamp>, bases: map<int, Base>)

  /** The tables, the emails in flight, and the number of steps so far. */
  datatype State = State(seen: Pairs, lastRun: map<int, int>, flights: seq<Flight>, steps: nat, log: Log)

  datatype Step =
    | Baseline(rule: Rule, tickets: seq<Ticket>, now: int)
    | Forget(id: int)
    | Check(rule: Rule, tickets: seq<Ticket>, now: int, reply: Reply, byHand: bool, at: int)
    | Deliver(flight: nat, delivered: bool, at: int)

  function Others(seen: Pairs, id: int): Pairs {
    set p | p in seen && p.0 != id
  }

  function BaseOf(g: Log, id: int): Base {
    if id in g.bases then g.bases[id] else Base({}, 0)
  }

  function Replaced(s: State, id: int, keys: seq<string>): State {
    s.(seen := Others(s.seen, id) + Marked(id, keys), steps := s.steps + 1,
       log := s.log.(bases := s.log.bases[id := Base(NonBlank(keys), s.steps + 1)]))
  }

  function Baselined(s: State, rule: Rule, tickets: seq<Ticket>, now: int): State {
    if rule.trigger.NewTicket?
    then Replaced(s, rule.id, Keys(Evaluate(rule, tickets, now)))
    else s.(steps := s.steps + 1)
  }

  function Checked(s: State, rule: Rule, tickets: seq<Ticket>, now: int, reply: Reply, byHand: bool, at: int): State {
    var s' := s.(steps := s.steps + 1);
    if rule.trigger.UnknownTrigger? then s'
    else
      var found := RuleMatches(s.seen, rule, tickets, now, reply);
      if found == [] then (if byHand then s' else s'.(lastRun := s.lastRun[rule.id := at]))
      else if !HasRecipients(rule.recipients) then s'
      else s'.(flights := s.flights + [Flight(rule, found, s.steps + 1)])
  }

  function Grown(g: Log, row: Row, stamp: Stamp): Log {
    g.(history := g.history + [row], stamps := g.stamps + [stamp])
  }

  function Delivered(s: State, i: nat, delivered: bool, at: int): State
    requires i < |s.flights|
  {
    var f := s.flights[i];
    s.(log := Grown(s.log, Row(f.rule.id, f.rule.trigger, Keys(f.tickets), delivered), Stamp(f.began, s.steps + 1)),
       lastRun := s.lastRun[f.rule.id := at],
       seen := if delivered && f.rule.trigger.NewTicket? then s.seen + Marked(f.rule.id, Keys(f.tickets)) else s.seen,
       flights := s.flights[..i] + s.flights[i + 1..],
       steps := s.steps + 1)
  }

  predicate Enabled(s: State, step: Step) {
    step.Deliver? ==> step.flight < |s.flights|
  }

  function Next(s: State, step: Step): State
    requires Enabled(s, step)
  {
    match step
    case Baseline(rule, tickets, now) => Baselined(s, rule, tickets, now)
    case Forget(id) => Replaced(s, id, [])
    case Check(rule, tickets, now, reply, byHand, at) => Checked(s, rule, tickets, now, reply, byHand, at)
    case Deliver(i, delivered, at) => Delivered(s, i, delivered, at)
  }

  const EMPTY := State({}, map[], [], 0, Log([], [], map[]))

  /** A check puts one email in flight exactly if it has recipients and anything to send, and
      the email is about exactly the tickets to be announced. */
  lemma CheckSendsExactly(
    s: State, rule: Rule, tickets: seq<Ticket>, now: int, reply: Reply, byHand: bool, at: int, t: Ticket)
    requires rule.trigger.NewTicket?
    ensures var s' := Next(s, Check(rule, tickets, now, reply, byHand, at));
      && s'.seen == s.seen && s'.log == s.log && s'.steps == s.steps + 1
      && s.flights <= s'.flights && |s'.flights| <= |s.flights| + 1
      && ((exists f :: f in s'.flights[|s.flights|..] && t in f.tickets) <==>
            && HasRecipients(rule.recipients)
            && Accepts(t, rule, reply.recheck) && (rule.id, t.key) !in s.seen
            && exists u :: u in tickets && Accepts(u, rule, now) && RefreshedTo(u, reply.refreshed, t))
  {
    var s' := Next(s, Check(rule, tickets, now, reply, byHand, at));
    var found := RuleMatches(s.seen, rule, tickets, now, reply);
    NewFlightOnly(s.flights, Flight(rule, found, s.steps + 1), t);
    if found == [] || !HasRecipients(rule.recipients) {
      assert s'.flights[|s.flights|..] == [];
    }
    MatchedExactly(s.seen, rule, tickets, now, reply, t);
  }

  lemma NewFlightOnly(flights: seq<Flight>, f: Flight, t: Ticket)
    ensures (exists g :: g in (flights + [f])[|flights|..] && t in g.tickets) <==> t in f.tickets
  {
    assert (flights + [f])[|flights|..] == [f];
    assert f in [f];
  }

  /** A baseline makes the accepted tickets of the moment the seen ones of its rule, forgetting
      empties them, and neither touches another rule. */
  lemma BaselineTakesAll(s: State, rule: Rule, tickets: seq<Ticket>, now: int, id: int, key: string)
    ensures (id, key) in Next(s, Baseline(rule, tickets, now)).seen <==>
      if rule.trigger.NewTicket? && id == rule.id
      then key != "" && exists t :: t in tickets && Accepts(t, rule, now) && t.key == key
      else (id, key) in s.seen
    ensures (id, key) in Next(s, Forget(rule.id)).seen <==> id != rule.id && (id, key) in s.seen
  {
    var baseline := Evaluate(rule, tickets, now);
    if t :| t in tickets && Accepts(t, rule, now) && t.key == key {
      EvaluateKeeps(rule, tickets, now, t);
      var i :| 0 <= i < |baseline| && baseline[i] == t;
      assert Keys(baseline)[i] == key;
    }
    if i :| 0 <= i < |baseline| && Keys(baseline)[i] == key {
      EvaluateKeeps(rule, tickets, now, baseline[i]);
    }
  }

  /** A rule's last run moves when a scheduled check finds nothing and when an email of the
      rule has gone out or failed, and never else. */
  lemma LastRunMoves(s: State, step: Step, id: int)
    requires Enabled(s, step)
    ensures (id in Next(s, step).lastRun) == (id in s.lastRun || MovesLastRun(s, step, id))
    ensures MovesLastRun(s, step, id) ==> Next(s, step).lastRun[id] == step.at
    ensures !MovesLastRun(s, step, id) && id in s.lastRun ==> Next(s, step).lastRun[id] == s.lastRun[id]
  {
    if step.Check? && !step.rule.trigger.UnknownTrigger? {
      var found := RuleMatches(s.seen, step.rule, step.tickets, step.now, step.reply);
      assert found == [] || found[0] in found;
    }
  }

  ghost predicate MovesLastRun(s: State, step: Step, id: int)
    requires Enabled(s, step)
  {
    match step
    case Baseline(_, _, _) => false
    case Forget(_) => false
    case Check(rule, tickets, now, reply, byHand, _) =>
      && rule.id == id && !byHand && !rule.trigger.UnknownTrigger?
      && forall t :: t !in RuleMatches(s.seen, rule, tickets, now, reply)
    case Deliver(i, _, _) => s.flights[i].rule.id == id
  }

  // ----- What every step keeps ---------------------------------------------------------------------

  predicate Timed(s: State) {
    && |s.log.stamps| == |s.log.history|
    && (forall st :: st in s.log.stamps ==> st.began < st.ended <= s.steps)
    && (forall f :: f in s.flights ==> f.began <= s.steps)
    && (forall id :: id in s.log.bases ==> s.log.bases[id].at <= s.steps)
  }

  /** The row announced tickets of this rule since its last baseline. */
  ghost predicate Announced(g: Log, id: int, i: nat) {
    && i < |g.history| && i < |g.stamps|
    && g.history[i].rule == id && g.history[i].trigger.NewTicket? && g.history[i].sent
    && g.stamps[i].ended > BaseOf(g, id).at
  }

  /** The key was in the baseline, or was announced in a row since. */
  ghost predicate Known(g: Log, id: int, key: string) {
    key in BaseOf(g, id).keys || exists i: nat :: Announced(g, id, i) && key in g.history[i].keys
  }

  ghost predicate SeenIsKnown(s: State) {
    forall id, key :: (id, key) in s.seen <==> key != "" && Known(s.log, id, key)
  }

  /** The key was announced or part of a baseline before the given step. */
  ghost predicate KnownBefore(g: Log, id: int, began: nat, key: string) {
    || (key in BaseOf(g, id).keys && BaseOf(g, id).at < began)
    || exists i: nat :: Announced(g, id, i) && g.stamps[i].ended < began && key in g.history[i].keys
  }

  /** Tickets chosen at a step repeat nothing that was announced before that step. */
  ghost predicate AreNew(g: Log, id: int, keys: seq<string>, began: nat) {
    forall key :: key in keys && key != "" ==> !KnownBefore(g, id, began, key)
  }

  ghost predicate Inv(s: State) {
    && Timed(s)
    && SeenIsKnown(s)
    && (forall f :: f in s.flights && f.rule.trigger.NewTicket? ==> AreNew(s.log, f.rule.id, Keys(f.tickets), f.began))
    && (forall j: nat :: j < |s.log.history| && s.log.history[j].trigger.NewTicket? ==> RowIsNew(s.log, j))
  }

  ghost predicate RowIsNew(g: Log, j: nat)
    requires j < |g.history|
  {
    j < |g.stamps| && AreNew(g, g.history[j].rule, g.history[j].keys, g.stamps[j].began)
  }

  /** A baseline changes nothing for other rules; for its own, it is all that is known, and
      nothing that began earlier is compared with it. */
  lemma ReplacedLog(s: State, id: int, keys: seq<string>, other: int, began: nat, key: string)
    requires Timed(s) && began <= s.steps
    ensures var g := Replaced(s, id, keys).log;
      && (Known(g, other, key) <==> if other == id then key in NonBlank(keys) else Known(s.log, other, key))
      && (KnownBefore(g, other, began, key) <==> other != id && KnownBefore(s.log, other, began, key))
  {
    var g := Replaced(s, id, keys).log;
    forall i: nat ensures Announced(g, other, i) <==> other != id && Announced(s.log, other, i) {
      if i < |s.log.stamps| {
        assert s.log.stamps[i] in s.log.stamps;
      }
    }
  }

  lemma ReplacedStaysNew(s: State, id: int, keys: seq<string>, other: int, ks: seq<string>, began: nat)
    requires Timed(s) && began <= s.steps && AreNew(s.log, other, ks, began)
    ensures AreNew(Replaced(s, id, keys).log, other, ks, began)
  {
    forall key | key in ks && key != "" ensures !KnownBefore(Replaced(s, id, keys).log, other, began, key) {
      ReplacedLog(s, id, keys, other, began, key);
    }
  }

  lemma ReplaceKeepsInv(s: State, id: int, keys: seq<string>)
    requires Inv(s)
    ensures Inv(Replaced(s, id, keys))
  {
    var s' := Replaced(s, id, keys);
    forall other, key ensures (other, key) in s'.seen <==> key != "" && Known(s'.log, other, key) {
      ReplacedLog(s, id, keys, other, 0, key);
    }
    forall f | f in s'.flights && f.rule.trigger.NewTicket?
      ensures AreNew(s'.log, f.rule.id, Keys(f.tickets), f.began)
    {
      ReplacedStaysNew(s, id, keys, f.rule.id, Keys(f.tickets), f.began);
    }
    forall j: nat | j < |s'.log.history| && s'.log.history[j].trigger.NewTicket? ensures RowIsNew(s'.log, j) {
      assert RowIsNew(s.log, j) && s.log.stamps[j] in s.log.stamps;
      ReplacedStaysNew(s, id, keys, s.log.history[j].rule, s.log.history[j].keys, s.log.stamps[j].began);
    }
  }

  /** What is chosen now is unseen, hence new. */
  lemma ChosenIsNew(s: State, rule: Rule, tickets: seq<Ticket>, now: int, reply: Reply, began: nat)
    requires SeenIsKnown(s) && rule.trigger.NewTicket?
    ensures AreNew(s.log, rule.id, Keys(RuleMatches(s.seen, rule, tickets, now, reply)), began)
  {
    var found := RuleMatches(s.seen, rule, tickets, now, reply);
    forall key | key in Keys(found) && key != "" ensures !KnownBefore(s.log, rule.id, began, key) {
      var i :| 0 <= i < |found| && found[i].key == key;
      MatchedExactly(s.seen, rule, tickets, now, reply, found[i]);
      assert !Known(s.log, rule.id, key);
    }
  }

  lemma CheckKeepsInv(s: State, rule: Rule, tickets: seq<Ticket>, now: int, reply: Reply, byHand: bool, at: int)
    requires Inv(s)
    ensures Inv(Checked(s, rule, tickets, now, reply, byHand, at))
  {
    if rule.trigger.NewTicket? {
      ChosenIsNew(s, rule, tickets, now, reply, s.steps + 1);
    }
  }

  /** A new last row adds its own keys to what is known, and is compared with nothing that
      began before it. */
  lemma GrownLog(g: Log, row: Row, stamp: Stamp, id: int, began: nat, key: string)
    requires |g.stamps| == |g.history| && began < stamp.ended
    ensures Known(Grown(g, row, stamp), id, key) <==>
      || Known(g, id, key)
      || (row.rule == id && row.trigger.NewTicket? && row.sent && stamp.ended > BaseOf(g, id).at && key in row.keys)
    ensures KnownBefore(Grown(g, row, stamp), id, began, key) <==> KnownBefore(g, id, began, key)
  {
    var g' := Grown(g, row, stamp);
    assert BaseOf(g', id) == BaseOf(g, id);
    forall i: nat | i < |g.history|
      ensures g'.history[i] == g.history[i] && g'.stamps[i] == g.stamps[i]
      ensures Announced(g', id, i) <==> Announced(g, id, i)
    {
    }
    if i: nat :| Announced(g, id, i) && key in g.history[i].keys {
      assert Announced(g', id, i) && key in g'.history[i].keys;
    }
    if i: nat :| Announced(g, id, i) && g.stamps[i].ended < began && key in g.history[i].keys {
      assert Announced(g', id, i) && g'.stamps[i].ended < began && key in g'.history[i].keys;
    }
    assert g'.history[|g.history|] == row && g'.stamps[|g.history|] == stamp;
    assert Announced(g', id, |g.history|) <==>
      row.rule == id && row.trigger.NewTicket? && row.sent && stamp.ended > BaseOf(g, id).at;
  }

  lemma GrownStaysNew(g: Log, row: Row, stamp: Stamp, id: int, keys: seq<string>, began: nat)
    requires |g.stamps| == |g.history| && began < stamp.ended && AreNew(g, id, keys, began)
    ensures AreNew(Grown(g, row, stamp), id, keys, began)
  {
    forall key | key in keys && key != "" ensures !KnownBefore(Grown(g, row, stamp), id, began, key) {
      GrownLog(g, row, stamp, id, began, key);
    }
  }

  lemma DeliverKeepsInv(s: State, i: nat, delivered: bool, at: int)
    requires Inv(s) && i < |s.flights|
    ensures Inv(Delivered(s, i, delivered, at))
  {
    var s', f := Delivered(s, i, delivered, at), s.flights[i];
    var row, stamp := Row(f.rule.id, f.rule.trigger, Keys(f.tickets), delivered), Stamp(f.began, s.steps + 1);
    assert f in s.flights;
    forall id, key ensures (id, key) in s'.seen <==> key != "" && Known(s'.log, id, key) {
      GrownLog(s.log, row, stamp, id, 0, key);
    }
    forall h | h in s'.flights && h.rule.trigger.NewTicket?
      ensures AreNew(s'.log, h.rule.id, Keys(h.tickets), h.began)
    {
      assert h in s.flights;
      GrownStaysNew(s.log, row, stamp, h.rule.id, Keys(h.tickets), h.began);
    }
    forall j: nat | j < |s'.log.history| && s'.log.history[j].trigger.NewTicket? ensures RowIsNew(s'.log, j) {
      if j < |s.log.history| {
        assert RowIsNew(s.log, j) && s.log.stamps[j] in s.log.stamps;
        GrownStaysNew(s.log, row, stamp, s.log.history[j].rule, s.log.history[j].keys, s.log.stamps[j].began);
      } else {
        GrownStaysNew(s.log, row, stamp, f.rule.id, Keys(f.tickets), f.began);
      }
    }
  }

  lemma StepKeepsInv(s: State, step: Step)
    requires Inv(s) && Enabled(s, step)
    ensures Inv(Next(s, step))
  {
    match step
    case Baseline(rule, tickets, now) =>
      if rule.trigger.NewTicket? {
        ReplaceKeepsInv(s, rule.id, Keys(Evaluate(rule, tickets, now)));
      }
    case Forget(id) => ReplaceKeepsInv(s, id, []);
    case Check(rule, tickets, now, reply, byHand, at) => CheckKeepsInv(s, rule, tickets, now, reply, byHand, at);
    case Deliver(i, delivered, at) => DeliverKeepsInv(s, i, delivered, at);
  }

  // ----- Runs ----------------------------------------------------------------------------------------

  /** The state after a run; to deliver an email that is not in flight does nothing. */
  function After(steps: seq<Step>): State {
    if steps == [] then EMPTY
    else
      var before, step := After(steps[..|steps| - 1]), steps[|steps| - 1];
      if Enabled(before, step) then Next(before, step) else before
  }

  lemma {:induction false} RunKeepsInv(steps: seq<Step>)
    ensures Inv(After(steps))
  {
    if steps != [] {
      var before, step := After(steps[..|steps| - 1]), steps[|steps| - 1];
      RunKeepsInv(steps[..|steps| - 1]);
      if Enabled(before, step) {
        StepKeepsInv(before, step);
      }
    }
  }

  /** In any run the seen keys of a rule are its baseline together with all keys that were
      sent since. */
  lemma SeenIsBaselineAndSent(steps: seq<Step>, id: int, key: string)
    ensures var s := After(steps);
      (id, key) in s.seen <==>
      && key != ""
      && (key in BaseOf(s.log, id).keys || exists i: nat :: Announced(s.log, id, i) && key in s.log.history[i].keys)
  {
    RunKeepsInv(steps);
  }

  /** In any run, checks that do not overlap announce no ticket twice: an announcement whose
      check began after another one was recorded shares no key with it, and one that began
      after the baseline shares none with the baseline. */
  lemma SerialAnnouncementsAreDisjoint(steps: seq<Step>, id: int, i: nat, j: nat, key: string)
    requires var g := After(steps).log; Announced(g, id, j) && key in g.history[j].keys && key != ""
    ensures var g := After(steps).log; g.stamps[j].began > BaseOf(g, id).at ==> key !in BaseOf(g, id).keys
    ensures var g := After(steps).log;
      Announced(g, id, i) && g.stamps[j].began > g.stamps[i].ended ==> key !in g.history[i].keys
  {
    RunKeepsInv(steps);
    var g := After(steps).log;
    assert RowIsNew(g, j);
    assert !KnownBefore(g, id, g.stamps[j].began, key);
  }

  /** Checks of one rule that do overlap announce every common ticket twice. */
  lemma OverlappingChecksRepeat(s: State, i: nat, j: nat, id: int, key: string, at: int, later: int)
    requires Timed(s) && i < j < |s.flights|
    requires forall f :: f in {s.flights[i], s.flights[j]} ==>
      f.rule.id == id && f.rule.trigger.NewTicket? && key in Keys(f.tickets)
    ensures var g, n := Delivered(Delivered(s, j, true, at), i, true, later).log, |s.log.history|;
      Announced(g, id, n) && Announced(g, id, n + 1) && key in g.history[n].keys && key in g.history[n + 1].keys
  {
    var s' := Delivered(s, j, true, at);
    assert s'.flights[i] == s.flights[i];
    assert BaseOf(Delivered(s', i, true, later).log, id) == BaseOf(s.log, id);
  }

  /** An email in flight while its rule gets a new baseline announces baseline tickets. */
  lemma BaselineDuringSendRepeats(s: State, i: nat, keys: seq<string>, key: string, at: int)
    requires Timed(s) && i < |s.flights| && s.flights[i].rule.trigger.NewTicket?
    requires key in Keys(s.flights[i].tickets) && key in NonBlank(keys)
    ensures var id, n := s.flights[i].rule.id, |s.log.history|;
      var g := Delivered(Replaced(s, id, keys), i, true, at).log;
      Announced(g, id, n) && key in g.history[n].keys && key in BaseOf(g, id).keys
  {
  }

  /** A check of one ticket that the rule accepts, with the refresh failing. */
  function CheckOf(rule: Rule, t: Ticket, now: int): Step {
    Check(rule, [t], now, Reply(None, now, []), false, now)
  }

  predicate Announceable(rule: Rule, t: Ticket, now: int) {
    rule.trigger.NewTicket? && HasRecipients(rule.recipients) && Accepts(t, rule, now) && t.key != ""
  }

  lemma OnlyMatch(seen: Pairs, rule: Rule, t: Ticket, now: int)
    requires rule.trigger.NewTicket? && Accepts(t, rule, now) && (rule.id, t.key) !in seen
    ensures RuleMatches(seen, rule, [t], now, Reply(None, now, [])) == [t]
  {
    assert [t][..0] == [];
    assert Evaluate(rule, [t], now) == [t];
    assert Unseen(seen, rule.id, [t]) == [t];
  }

  lemma CheckTakesOff(s: State, rule: Rule, t: Ticket, now: int)
    requires Announceable(rule, t, now) && (rule.id, t.key) !in s.seen
    ensures Next(s, CheckOf(rule, t, now)) ==
      s.(flights := s.flights + [Flight(rule, [t], s.steps + 1)], steps := s.steps + 1)
  {
    OnlyMatch(s.seen, rule, t, now);
    TakesOffWith(s, rule, [t], now, Reply(None, now, []), [t], now);
  }

  lemma TakesOffWith(
    s: State, rule: Rule, tickets: seq<Ticket>, now: int, reply: Reply, found: seq<Ticket>, at: int)
    requires rule.trigger.NewTicket? && HasRecipients(rule.recipients)
    requires RuleMatches(s.seen, rule, tickets, now, reply) == found && found != []
    ensures Checked(s, rule, tickets, now, reply, false, at) ==
      s.(flights := s.flights + [Flight(rule, found, s.steps + 1)], steps := s.steps + 1)
  {
  }

  /** The state in which a check of the ticket has begun once, or twice. */
  function InFlight(rule: Rule, t: Ticket, checks: nat): State
    requires checks <= 2
  {
    var flights := [Flight(rule, [t], 1), Flight(rule, [t], 2)];
    EMPTY.(flights := flights[..checks], steps := checks)
  }

  lemma AfterExtends(steps: seq<Step>, step: Step)
    requires Enabled(After(steps), step)
    ensures After(steps + [step]) == Next(After(steps), step)
  {
    assert (steps + [step])[..|steps|] == steps;
  }

  lemma CheckBegins(rule: Rule, t: Ticket, now: int)
    requires Announceable(rule, t, now)
    ensures After([CheckOf(rule, t, now)]) == InFlight(rule, t, 1)
  {
    var check := CheckOf(rule, t, now);
    AfterExtends([], check);
    assert [] + [check] == [check];
    CheckTakesOff(EMPTY, rule, t, now);
  }

  lemma CheckBeginsTwice(rule: Rule, t: Ticket, now: int)
    requires Announceable(rule, t, now)
    ensures After([CheckOf(rule, t, now), CheckOf(rule, t, now)]) == InFlight(rule, t, 2)
  {
    var check := CheckOf(rule, t, now);
    CheckBegins(rule, t, now);
    AfterExtends([check], check);
    assert [check] + [check] == [check, check];
    CheckTakesOff(InFlight(rule, t, 1), rule, t, now);
  }

  lemma BothDelivered(rule: Rule, t: Ticket, now: int)
    requires Announceable(rule, t, now)
    ensures After([CheckOf(rule, t, now), CheckOf(rule, t, now), Deliver(1, true, now), Deliver(0, true, now)]) ==
      Delivered(Delivered(InFlight(rule, t, 2), 1, true, now), 0, true, now)
  {
    var check, second, first := CheckOf(rule, t, now), Deliver(1, true, now), Deliver(0, true, now);
    CheckBeginsTwice(rule, t, now);
    AfterExtends([check, check], second);
    assert [check, check] + [second] == [check, check, second];
    AfterExtends([check, check, second], first);
    assert [check, check, second] + [first] == [check, check, second, first];
  }

  lemma BaselinedInFlight(rule: Rule, t: Ticket, now: int)
    requires Announceable(rule, t, now)
    ensures After([CheckOf(rule, t, now), Baseline(rule, [t], now), Deliver(0, true, now)]) ==
      Delivered(Replaced(InFlight(rule, t, 1), rule.id, [t.key]), 0, true, now)
  {
    var check, baseline, email := CheckOf(rule, t, now), Baseline(rule, [t], now), Deliver(0, true, now);
    CheckBegins(rule, t, now);
    AfterExtends([check], baseline);
    assert [check] + [baseline] == [check, baseline];
    AfterExtends([check, baseline], email);
    assert [check, baseline] + [email] == [check, baseline, email];
    assert [t][..0] == [] && Evaluate(rule, [t], now) == [t] && Keys([t]) == [t.key];
  }

  /** Any rule that finds a ticket comes to announce it twice: a second check begins before
      the first one's email has gone out. */
  lemma OverlapRepeatsInARun(rule: Rule, t: Ticket, now: int)
    requires Announceable(rule, t, now)
    ensures var check := CheckOf(rule, t, now);
      var g := After([check, check, Deliver(1, true, now), Deliver(0, true, now)]).log;
      && Announced(g, rule.id, 0) && Announced(g, rule.id, 1)
      && t.key in g.history[0].keys && t.key in g.history[1].keys
  {
    BothDelivered(rule, t, now);
    assert Keys([t])[0] == t.key;
    OverlappingChecksRepeat(InFlight(rule, t, 2), 0, 1, rule.id, t.key, now, now);
  }

  /** And it comes to announce a ticket of its own baseline: one taken while the email of a
      check is in flight. */
  lemma BaselineRepeatsInARun(rule: Rule, t: Ticket, now: int)
    requires Announceable(rule, t, now)
    ensures var g := After([CheckOf(rule, t, now), Baseline(rule, [t], now), Deliver(0, true, now)]).log;
      Announced(g, rule.id, 0) && t.key in g.history[0].keys && t.key in BaseOf(g, rule.id).keys
  {
    BaselinedInFlight(rule, t, now);
    assert Keys([t])[0] == t.key;
    BaselineDuringSendRepeats(InFlight(rule, t, 1), 0, [t.key], t.key, now);
  }

  /** After a failed send an unchanged ticket is announced by the next check exactly when the
      rule is not limited to new tickets, or the ticket is no older than the failed send:
      the failure has moved the rule's last run. */
  lemma FailedSendIsRetriedIff(
    s: State, i: nat, at: int, chosenAt: int, tickets: seq<Ticket>, now: int, reply: Reply, t: Ticket)
    requires i < |s.flights| && s.flights[i].rule.trigger.NewTicket?
    requires Accepts(t, s.flights[i].rule, chosenAt)
    requires (s.flights[i].rule.id, t.key) !in s.seen && t in tickets
    requires RefreshedTo(t, reply.refreshed, t)
    ensures var s', rule := Delivered(s, i, false, at), s.flights[i].rule;
      && s'.seen == s.seen
      && (t in RuleMatches(s'.seen, rule.(lastRun := Some(s'.lastRun[rule.id])), tickets, now, reply) <==>
            !rule.filters.newOnly || t.created.value >= at)
  {
    var rule := s.flights[i].rule.(lastRun := Some(at));
    MatchedExactly(s.seen, rule, tickets, now, reply, t);
  }

  // ----- The store -----------------------------------------------------------------------------------

  class AlertStore {
    var seen: Pairs
    var history: seq<Row>
    var lastRun: map<int, int>
    ghost var flights: seq<Flight>
    ghost var steps: nat
    ghost var stamps: seq<Stamp>
    ghost var bases: map<int, Base>

    ghost function View(): State
      reads this
    {
      State(seen, lastRun, flights, steps, Log(history, stamps, bases))
    }

    method GetSeenTicketKeys(id: int) returns (keys: set<string>)
      ensures forall key :: key in keys <==> (id, key) in seen
    {
      keys := set p | p in seen && p.0 == id :: p.1;
      assert forall key :: (id, key) in seen ==> (id, key).1 in keys;
    }

    /** Inserts that ignore rows already there. */
    method MarkTicketKeysSeen(id: int, keys: seq<string>)
      modifies this`seen
      ensures seen == old(seen) + Marked(id, keys)
    {
      for i := 0 to |keys|
        invariant seen == old(seen) + Marked(id, keys[..i])
      {
        assert keys[..i + 1] == keys[..i] + [keys[i]];
        if keys[i] != "" {
          seen := seen + {(id, keys[i])};
        }
      }
      assert keys[..|keys|] == keys;
    }

    method ReplaceSeenTicketKeys(id: int, keys: seq<string>)
      modifies this`seen
      ensures seen == Others(old(seen), id) + Marked(id, keys)
    {
      seen := set p | p in seen && p.0 != id;
      MarkTicketKeysSeen(id, keys);
    }

    method RecordSend(rule: Rule, keys: seq<string>, sent: bool)
      modifies this`history
      ensures history == old(history) + [Row(rule.id, rule.trigger, keys, sent)]
    {
      history := history + [Row(rule.id, rule.trigger, keys, sent)];
    }

    method UpdateLastRun(id: int, at: int)
      modifies this`lastRun
      ensures lastRun == old(lastRun)[id := at]
    {
      lastRun := lastRun[id := at];
    }
  }

  method FilterUnseenTickets(store: AlertStore, rule: Rule, tickets: seq<Ticket>) returns (unseen: seq<Ticket>)
    ensures unseen == if rule.trigger.NewTicket? then Unseen(store.seen, rule.id, tickets) else tickets
  {
    if !rule.trigger.NewTicket? {
      return tickets;
    }
    var keys := store.GetSeenTicketKeys(rule.id);
    unseen := [];
    for i := 0 to |tickets|
      invariant unseen == Unseen(store.seen, rule.id, tickets[..i])
    {
      assert tickets[..i + 1][..i] == tickets[..i];
      if tickets[i].key !in keys {
        unseen := unseen + [tickets[i]];
      }
    }
    assert tickets[..|tickets|] == tickets;
  }

  /** `None` stands for the error of an unknown trigger. */
  method GetRuleMatches(store: AlertStore, rule: Rule, tickets: seq<Ticket>, now: int, reply: Reply)
    returns (found: Option<seq<Ticket>>)
    ensures found.None? <==> rule.trigger.UnknownTrigger?
    ensures found.Some? ==> found.value == RuleMatches(store.seen, rule, tickets, now, reply)
  {
    match rule.trigger
    case UnknownTrigger => found := None;
    case OtherTrigger => found := Some(reply.others);
    case NewTicket =>
      var matching := Evaluate(rule, tickets, now);
      if matching != [] {
        matching := Evaluate(rule, Refreshed(matching, reply.refreshed), reply.recheck);
      }
      matching := FilterUnseenTickets(store, rule, matching);
      found := Some(matching);
  }

  method BaselineNewTicketRule(store: AlertStore, rule: Rule, tickets: seq<Ticket>, now: int)
    requires Inv(store.View())
    modifies store
    ensures store.View() == Baselined(old(store.View()), rule, tickets, now)
    ensures Inv(store.View())
  {
    StepKeepsInv(store.View(), Baseline(rule, tickets, now));
    store.steps := store.steps + 1;
    if rule.trigger.NewTicket? {
      var keys := Keys(Evaluate(rule, tickets, now));
      store.ReplaceSeenTicketKeys(rule.id, keys);
      store.bases := store.bases[rule.id := Base(NonBlank(keys), store.steps)];
    }
  }

  /** A check up to its email: what is to be sent, if anything. */
  method BeginCheck(store: AlertStore, rule: Rule, tickets: seq<Ticket>, now: int, reply: Reply, byHand: bool, at: int)
    returns (outgoing: seq<Ticket>)
    requires Inv(store.View())
    modifies store
    ensures store.View() == Checked(old(store.View()), rule, tickets, now, reply, byHand, at)
    ensures outgoing != [] <==> |store.flights| > |old(store.flights)|
    ensures outgoing != [] ==> store.flights == old(store.flights) + [Flight(rule, outgoing, store.steps)]
    ensures Inv(store.View())
  {
    StepKeepsInv(store.View(), Check(rule, tickets, now, reply, byHand, at));
    store.steps := store.steps + 1;
    outgoing := [];
    var found := GetRuleMatches(store, rule, tickets, now, reply);
    if found.None? {
      return;
    }
    if found.value == [] {
      if !byHand {
        store.UpdateLastRun(rule.id, at);
      }
    } else if HasRecipients(rule.recipients) {
      outgoing := found.value;
      store.flights := store.flights + [Flight(rule, outgoing, store.steps)];
    }
  }

  /** What follows when the email of flight `i` has been sent or has failed. */
  method FinishCheck(store: AlertStore, rule: Rule, outgoing: seq<Ticket>, ghost i: nat, delivered: bool, at: int)
    requires Inv(store.View()) && i < |store.flights|
    requires store.flights[i].rule == rule && store.flights[i].tickets == outgoing
    modifies store
    ensures store.View() == Delivered(old(store.View()), i, delivered, at)
    ensures Inv(store.View())
  {
    StepKeepsInv(store.View(), Deliver(i, delivered, at));
    ghost var f := store.flights[i];
    store.steps := store.steps + 1;
    store.stamps := store.stamps + [Stamp(f.began, store.steps)];
    store.flights := store.flights[..i] + store.flights[i + 1..];
    store.RecordSend(rule, Keys(outgoing), delivered);
    store.UpdateLastRun(rule.id, at);
    if delivered && rule.trigger.NewTicket? {
      store.MarkTicketKeysSeen(rule.id, Keys(outgoing));
    }
  }

  // ----- One pass over all rules ---------------------------------------------------------------------

  /** What the world answers to one rule of a pass. */
  datatype Visit = Visit(due: bool, now: int, reply: Reply, at: int, delivered: bool, sentAt: int)

  /** The state after one rule of a pass that no other task interrupts. */
  function Visited(s: State, rule: Rule, tickets: seq<Ticket>, v: Visit): State {
    if !v.due then s
    else
      var begun := Checked(s, rule, tickets, v.now, v.reply, false, v.at);
      if |begun.flights| > |s.flights| then Delivered(begun, |s.flights|, v.delivered, v.sentAt) else begun
  }

  function Passed(s: State, rules: seq<Rule>, tickets: seq<Ticket>, visits: seq<Visit>): State
    requires |rules| == |visits|
  {
    if rules == [] then s
    else
      var n := |rules| - 1;
      Visited(Passed(s, rules[..n], tickets, visits[..n]), rules[n], tickets, visits[n])
  }

  function SentRows(history: seq<Row>): nat {
    if history == [] then 0 else SentRows(history[..|history| - 1]) + (if history[|history| - 1].sent then 1 else 0)
  }

  ghost function SentAt(history: seq<Row>): set<nat> {
    set i: nat | i < |history| && history[i].sent
  }

  lemma SentAtExtends(history: seq<Row>, row: Row)
    ensures SentAt(history + [row]) == SentAt(history) + if row.sent then {|history|} else {}
  {
  }

  /** Rows of emails that went out are counted once each. */
  lemma {:induction false} SentRowsCount(history: seq<Row>)
    ensures SentRows(history) == |SentAt(history)|
  {
    if history != [] {
      var front, last := history[..|history| - 1], history[|history| - 1];
      assert history == front + [last];
      SentRowsCount(front);
      SentAtExtends(front, last);
    }
  }

  /** One visit: nothing unless the rule is due; then one row about the matching tickets if
      there are any and the rule is known and has recipients, and no email left in flight. */
  lemma VisitRecords(s: State, rule: Rule, tickets: seq<Ticket>, v: Visit)
    ensures var s' := Visited(s, rule, tickets, v);
      if !v.due then s' == s
      else
        && s'.flights == s.flights
        && if rule.trigger.UnknownTrigger? || !HasRecipients(rule.recipients)
              || RuleMatches(s.seen, rule, tickets, v.now, v.reply) == []
           then s'.log == s.log && s'.seen == s.seen
           else s'.log.history == s.log.history + [
             Row(rule.id, rule.trigger, Keys(RuleMatches(s.seen, rule, tickets, v.now, v.reply)), v.delivered)]
  {
    if v.due {
      var begun := Checked(s, rule, tickets, v.now, v.reply, false, v.at);
      if |begun.flights| > |s.flights| {
        var n := |s.flights|;
        assert begun.flights[..n] + begun.flights[n + 1..] == s.flights;
      }
    }
  }

  /** A pass visits the rules one after the other, each in the state the one before left. */
  lemma {:induction false} PassSplits(
    s: State, rules: seq<Rule>, more: seq<Rule>, tickets: seq<Ticket>, visits: seq<Visit>, later: seq<Visit>)
    requires |rules| == |visits| && |more| == |later|
    ensures Passed(s, rules + more, tickets, visits + later) ==
      Passed(Passed(s, rules, tickets, visits), more, tickets, later)
  {
    if more == [] {
      assert rules + more == rules && visits + later == visits;
    } else {
      var n, m := |more| - 1, |rules| + |more| - 1;
      assert (rules + more)[..m] == rules + more[..n] && (visits + later)[..m] == visits + later[..n];
      assert (rules + more)[m] == more[n] && (visits + later)[m] == later[n];
      PassSplits(s, rules, more[..n], tickets, visits, later[..n]);
    }
  }

  lemma PassOfOne(s: State, rule: Rule, tickets: seq<Ticket>, v: Visit)
    ensures Passed(s, [rule], tickets, [v]) == Visited(s, rule, tickets, v)
  {
    assert [rule][..0] == [] && [v][..0] == [];
  }

  method VisitRule(store: AlertStore, rule: Rule, tickets: seq<Ticket>, v: Visit) returns (sent: bool)
    requires Inv(store.View())
    modifies store
    ensures store.View() == Visited(old(store.View()), rule, tickets, v)
    ensures SentRows(store.history) == SentRows(old(store.history)) + if sent then 1 else 0
    ensures Inv(store.View())
  {
    sent := false;
    if v.due {
      ghost var n, history := |store.flights|, store.history;
      var outgoing := BeginCheck(store, rule, tickets, v.now, v.reply, false, v.at);
      if outgoing != [] {
        FinishCheck(store, rule, outgoing, n, v.delivered, v.sentAt);
        assert store.history[..|history|] == history;
        sent := v.delivered;
      }
    }
  }

  method RunAlertChecks(store: AlertStore, rules: seq<Rule>, tickets: seq<Ticket>, visits: seq<Visit>)
      returns (sentCount: nat)
    requires Inv(store.View()) && |rules| == |visits|
    modifies store
    ensures store.View() == Passed(old(store.View()), rules, tickets, visits)
    ensures SentRows(store.history) == SentRows(old(store.history)) + sentCount
    ensures Inv(store.View())
  {
    ghost var start := store.View();
    sentCount := 0;
    for i := 0 to |rules|
      invariant Inv(store.View())
      invariant store.View() == Passed(start, rules[..i], tickets, visits[..i])
      invariant SentRows(store.history) == SentRows(start.log.history) + sentCount
    {
      assert rules[..i + 1][..i] == rules[..i] && visits[..i + 1][..i] == visits[..i];
      var sent := VisitRule(store, rules[i], tickets, visits[i]);
      if sent {
        sentCount := sentCount + 1;
      }
    }
    assert rules[..|rules|] == rules && visits[..|visits|] == visits;
  }
}
