/** The directory layout of cost exports: a printer of paths, a parser that must accept what
    the printer prints and nothing else, and the normalisation of segments between them. */
module LandingZonePath {
  import opened Options
  import opened Text

  // ----- Segments ------------------------------------------------------------------------------

  predicate IsAlnum(c: char) {
    'a' <= c <= 'z' || '0' <= c <= '9'
  }

  predicate IsAllowed(c: char) {
    IsAlnum(c) || c == '_' || c == '.' || c == '=' || c == '-'
  }

  const EDGES := Any({'.', '_', '-'})

  predicate IsEdge(c: char) {
    Cuts(EDGES, c)
  }

  /** Lower case as far as it can matter: beside the ASCII letters, the dotted capital I and
      the Kelvin sign are the only characters whose lower case holds an allowed one. */
  function LowerText(c: char): string {
    if c == '\U{0130}' then "i\U{0307}" else if c == '\U{212A}' then "k" else [LowerChar(c)]
  }

  function Lowered(s: string): string {
    if s == [] then [] else LowerText(s[0]) + Lowered(s[1..])
  }

  /** Every run of characters that are not allowed becomes one dash. */
  function ReplaceRuns(s: string): string {
    if s == [] then []
    else if |s| > 1 && !IsAllowed(s[0]) && !IsAllowed(s[1]) then ReplaceRuns(s[1..])
    else [if IsAllowed(s[0]) then s[0] else '-'] + ReplaceRuns(s[1..])
  }

  /** Every run of dashes becomes one dash. */
  function CollapseDashes(s: string): string {
    if s == [] then []
    else if |s| > 1 && s[0] == '-' && s[1] == '-' then CollapseDashes(s[1..])
    else [s[0]] + CollapseDashes(s[1..])
  }

  /** `None` stands for a `ValueError`, here and below. */
  function NormalizeSegment(value: string): Option<string> {
    var text := Trim(CollapseDashes(ReplaceRuns(Lowered(Strip(value)))), EDGES);
    if text == [] || !IsAlnum(text[0]) then None else Some(text)
  }

  // ----- What normalisation means ------------------------------------------------------------------

  /** A normal form, described without reference to how it is reached. */
  predicate Canonical(s: string) {
    && s != [] && IsAlnum(s[0]) && !IsEdge(s[|s| - 1])
    && AllAllowed(s)
    && SingleDashes(s)
  }

  predicate AllAllowed(s: string) {
    forall c :: c in s ==> IsAllowed(c)
  }

  predicate SingleDashes(s: string) {
    forall i :: 0 < i < |s| && s[i] == '-' ==> !DashBefore(s, i)
  }

  predicate DashBefore(s: string, i: int)
    requires 0 < i < |s|
  {
    s[i - 1] == '-'
  }

  lemma {:induction false} ReplaceRunsAllows(s: string)
    ensures AllAllowed(ReplaceRuns(s))
    ensures AllAllowed(s) ==> ReplaceRuns(s) == s
  {
    if s != [] {
      ReplaceRunsAllows(s[1..]);
      assert s[0] in s && forall c :: c in s[1..] ==> c in s;
      assert s == [s[0]] + s[1..];
    }
  }

  lemma {:induction false} CollapseIsSingle(s: string)
    ensures SingleDashes(CollapseDashes(s))
    ensures CollapseDashes(s) != [] <==> s != []
    ensures s != [] ==> CollapseDashes(s)[0] == s[0]
    ensures AllAllowed(s) ==> AllAllowed(CollapseDashes(s))
  {
    if s != [] {
      CollapseIsSingle(s[1..]);
      var t, r := CollapseDashes(s[1..]), CollapseDashes(s);
      assert s[0] in s && forall c :: c in s[1..] ==> c in s;
      if !(|s| > 1 && s[0] == '-' && s[1] == '-') {
        forall i | 0 < i < |r| && r[i] == '-' ensures !DashBefore(r, i) {
          if i > 1 {
            assert t[i - 1] == '-' && !DashBefore(t, i - 1);
          }
        }
      }
    }
  }

  lemma {:induction false} CollapseFixes(s: string)
    requires SingleDashes(s)
    ensures CollapseDashes(s) == s
  {
    if s != [] {
      assert |s| > 1 && s[1] == '-' ==> !DashBefore(s, 1);
      forall i | 0 < i < |s[1..]| && s[1..][i] == '-' ensures !DashBefore(s[1..], i) {
        assert !DashBefore(s, i + 1);
      }
      CollapseFixes(s[1..]);
      assert s == [s[0]] + s[1..];
    }
  }

  lemma AllowedIsLower(c: char)
    requires IsAllowed(c)
    ensures LowerText(c) == [c]
  {
  }

  lemma {:induction false} LoweredFixes(s: string)
    requires AllAllowed(s)
    ensures Lowered(s) == s
  {
    if s != [] {
      var first, rest := s[0], s[1..];
      assert s == [first] + rest;
      LoweredFixes(rest);
      AllowedIsLower(first);
    }
  }

  lemma NormalizeIsCanonical(value: string)
    requires NormalizeSegment(value).Some?
    ensures Canonical(NormalizeSegment(value).value)
  {
    var replaced := ReplaceRuns(Lowered(Strip(value)));
    var single := CollapseDashes(replaced);
    ReplaceRunsAllows(Lowered(Strip(value)));
    CollapseIsSingle(replaced);
    var a, b := TrimShape(single, EDGES);
    var text := single[a..b];
    assert AllAllowed(text) by {
      assert forall c :: c in text ==> c in single;
    }
    forall i | 0 < i < |text| && text[i] == '-' ensures !DashBefore(text, i) {
      assert !DashBefore(single, a + i);
    }
  }

  lemma CanonicalIsFixed(s: string)
    requires Canonical(s)
    ensures NormalizeSegment(s) == Some(s)
  {
    assert s[0] in s && s[|s| - 1] in s;
    TrimmedIsFixed(s, Blanks);
    LoweredFixes(s);
    ReplaceRunsAllows(s);
    CollapseFixes(s);
    TrimmedIsFixed(s, EDGES);
  }

  /** Normalisation is idempotent, and its results are exactly the canonical texts. */
  lemma NormalizeIsIdempotent(value: string, text: string)
    ensures NormalizeSegment(value) == Some(text) ==> NormalizeSegment(text) == Some(text)
    ensures NormalizeSegment(text) == Some(text) <==> Canonical(text)
  {
    if NormalizeSegment(value) == Some(text) {
      NormalizeIsCanonical(value);
      CanonicalIsFixed(text);
    }
    if NormalizeSegment(text) == Some(text) {
      NormalizeIsCanonical(text);
    }
    if Canonical(text) {
      CanonicalIsFixed(text);
    }
  }

  // ----- What becomes of the rest ------------------------------------------------------------------

  lemma {:induction false} ReplaceRunsConcat(s: string, t: string)
    requires s == [] || t == [] || IsAllowed(s[|s| - 1]) || IsAllowed(t[0])
    ensures ReplaceRuns(s + t) == ReplaceRuns(s) + ReplaceRuns(t)
  {
    if s == [] {
      assert s + t == t;
    } else {
      var all := s + t;
      ReplaceRunsConcat(s[1..], t);
      assert all[0] == s[0] && all[1..] == s[1..] + t;
      assert |all| > 1 ==> all[1] == if |s| > 1 then s[1] else t[0];
      assert ReplaceRuns(all) == if |all| > 1 && !IsAllowed(all[0]) && !IsAllowed(all[1]) then ReplaceRuns(all[1..])
        else [if IsAllowed(all[0]) then all[0] else '-'] + ReplaceRuns(all[1..]);
    }
  }

  lemma {:induction false} CollapseConcat(s: string, t: string)
    requires s == [] || t == [] || s[|s| - 1] != '-' || t[0] != '-'
    ensures CollapseDashes(s + t) == CollapseDashes(s) + CollapseDashes(t)
  {
    if s == [] {
      assert s + t == t;
    } else {
      CollapseConcat(s[1..], t);
      assert (s + t)[1..] == s[1..] + t;
    }
  }

  /** A character that no segment may hold, in either case. */
  predicate IsForbidden(c: char) {
    LowerText(c) == [c] && !IsAllowed(c)
  }

  predicate AllDashes(s: string) {
    forall c :: c in s ==> c == '-'
  }

  lemma {:induction false} LoweredKeepsJunk(s: string)
    requires forall c :: c in s ==> IsForbidden(c) || IsEdge(c)
    ensures Lowered(s) == s
  {
    if s != [] {
      assert s == [s[0]] + s[1..] && s[0] in s;
      LoweredKeepsJunk(s[1..]);
      assert LowerText(s[0]) == [s[0]];
    }
  }

  lemma {:induction false} JunkBecomesDashes(s: string)
    requires forall c :: c in s ==> IsForbidden(c) || c == '-'
    ensures AllDashes(ReplaceRuns(s)) && (s != [] ==> ReplaceRuns(s) != [])
  {
    if s != [] {
      assert s[0] in s;
      JunkBecomesDashes(s[1..]);
    }
  }

  lemma {:induction false} DashesBecomeOne(s: string)
    requires AllDashes(s) && s != []
    ensures CollapseDashes(s) == "-"
  {
    assert s[0] in s;
    if |s| > 1 {
      assert s[1] in s && forall c :: c in s[1..] ==> c in s;
      DashesBecomeOne(s[1..]);
    }
  }

  lemma PartsOfCanonical(a: string, b: string)
    requires Canonical(a + "-" + b)
    ensures a != [] && a[|a| - 1] != '-' && AllAllowed(a) && SingleDashes(a) && !IsSpace(a[0])
    ensures b != [] && b[0] != '-' && AllAllowed(b) && SingleDashes(b) && !IsSpace(b[|b| - 1])
  {
    var s := a + "-" + b;
    assert s[|a|] == '-';
    assert a != [] && s[0] == a[0];
    assert b != [] && s[|s| - 1] == b[|b| - 1];
    assert s[|a| - 1] == a[|a| - 1] && !DashBefore(s, |a|);
    assert s[|a| + 1] == b[0] && (b[0] == '-' ==> !DashBefore(s, |a| + 1));
    assert forall c :: c in a || c in b ==> c in s;
    assert a[0] in a && b[|b| - 1] in b;
    forall i | 0 < i < |a| && a[i] == '-' ensures !DashBefore(a, i) {
      assert s[i] == '-' && !DashBefore(s, i);
    }
    forall i | 0 < i < |b| && b[i] == '-' ensures !DashBefore(b, i) {
      assert s[|a| + 1 + i] == '-' && !DashBefore(s, |a| + 1 + i);
    }
  }

  lemma JunkBetween(a: string, junk: string, b: string)
    requires a != [] && a[|a| - 1] != '-' && AllAllowed(a) && SingleDashes(a)
    requires b != [] && b[0] != '-' && AllAllowed(b) && SingleDashes(b)
    requires junk != [] && forall c :: c in junk ==> IsForbidden(c) || c == '-'
    ensures CollapseDashes(ReplaceRuns(Lowered(a + junk + b))) == a + "-" + b
  {
    LoweredConcat(a + junk, b);
    LoweredConcat(a, junk);
    LoweredFixes(a);
    LoweredFixes(b);
    LoweredKeepsJunk(junk);
    assert a[|a| - 1] in a && b[0] in b;
    ReplaceRunsConcat(a, junk);
    assert (a + junk)[|a + junk| - 1] in junk;
    ReplaceRunsConcat(a + junk, b);
    ReplaceRunsAllows(a);
    ReplaceRunsAllows(b);
    JunkBecomesDashes(junk);
    var dashes := ReplaceRuns(junk);
    CollapseConcat(a, dashes);
    CollapseConcat(a + dashes, b);
    CollapseFixes(a);
    CollapseFixes(b);
    DashesBecomeOne(dashes);
  }

  /** A run of forbidden characters and dashes inside a text becomes one dash. */
  lemma RunBecomesDash(a: string, junk: string, b: string)
    requires Canonical(a + "-" + b)
    requires junk != [] && forall c :: c in junk ==> IsForbidden(c) || c == '-'
    ensures NormalizeSegment(a + junk + b) == Some(a + "-" + b)
  {
    var value := a + junk + b;
    PartsOfCanonical(a, b);
    assert value[0] == a[0] && value[|value| - 1] == b[|b| - 1];
    TrimmedIsFixed(value, Blanks);
    JunkBetween(a, junk, b);
    TrimmedIsFixed(a + "-" + b, EDGES);
  }

  lemma JunkBecomesEdges(s: string)
    requires forall c :: c in s ==> IsForbidden(c) || IsEdge(c)
    ensures forall c :: c in CollapseDashes(ReplaceRuns(s)) ==> IsEdge(c)
  {
    ReplacedAreEdges(s);
    CollapsedAreEdges(ReplaceRuns(s));
  }

  lemma {:induction false} ReplacedAreEdges(s: string)
    requires forall c :: c in s ==> IsForbidden(c) || IsEdge(c)
    ensures forall c :: c in ReplaceRuns(s) ==> IsEdge(c)
  {
    if s != [] {
      assert s[0] in s;
      ReplacedAreEdges(s[1..]);
    }
  }

  lemma {:induction false} CollapsedAreEdges(s: string)
    requires forall c :: c in s ==> IsEdge(c)
    ensures forall c :: c in CollapseDashes(s) ==> IsEdge(c)
  {
    if s != [] {
      assert s[0] in s;
      CollapsedAreEdges(s[1..]);
    }
  }

  lemma {:induction false} StripLeavesStart(left: string, s: string) returns (rest: string)
    requires s != [] && !IsSpace(s[0])
    ensures TrimStart(left + s, Blanks) == rest + s && forall c :: c in rest ==> c in left
  {
    if left != [] && IsSpace(left[0]) {
      assert (left + s)[1..] == left[1..] + s;
      rest := StripLeavesStart(left[1..], s);
    } else {
      rest := left;
    }
  }

  lemma {:induction false} StripLeavesEnd(s: string, right: string) returns (rest: string)
    requires s != [] && !IsSpace(s[|s| - 1])
    ensures TrimEnd(s + right, Blanks) == s + rest && forall c :: c in rest ==> c in right
  {
    if right != [] && IsSpace(right[|right| - 1]) {
      assert (s + right)[..|s + right| - 1] == s + right[..|right| - 1];
      rest := StripLeavesEnd(s, right[..|right| - 1]);
    } else {
      rest := right;
    }
  }

  lemma ReplaceAround(left: string, a: string, right: string)
    requires Canonical(a)
    ensures ReplaceRuns(left + a + right) == ReplaceRuns(left) + a + ReplaceRuns(right)
  {
    assert a[0] in a && a[|a| - 1] in a && (left + a)[|left + a| - 1] == a[|a| - 1];
    ReplaceRunsConcat(left, a);
    ReplaceRunsConcat(left + a, right);
    ReplaceRunsAllows(a);
  }

  lemma CollapseAround(left: string, a: string, right: string)
    requires Canonical(a)
    ensures CollapseDashes(left + a + right) == CollapseDashes(left) + a + CollapseDashes(right)
  {
    assert (left + a)[|left + a| - 1] == a[|a| - 1];
    CollapseConcat(left, a);
    CollapseConcat(left + a, right);
    CollapseFixes(a);
  }

  lemma EdgesAround(left: string, a: string, right: string)
    requires Canonical(a) && forall c :: c in left || c in right ==> IsForbidden(c) || IsEdge(c)
    ensures Trim(CollapseDashes(ReplaceRuns(Lowered(left + a + right))), EDGES) == a
  {
    var l, r := CollapseDashes(ReplaceRuns(left)), CollapseDashes(ReplaceRuns(right));
    assert CollapseDashes(ReplaceRuns(Lowered(left + a + right))) == l + a + r by {
      LoweredAround(left, a, right);
      ReplaceAround(left, a, right);
      CollapseAround(ReplaceRuns(left), a, ReplaceRuns(right));
    }
    JunkBecomesEdges(left);
    JunkBecomesEdges(right);
    TrimTakesEnds(l, a, r, EDGES);
  }

  lemma LoweredAround(left: string, a: string, right: string)
    requires Canonical(a) && forall c :: c in left || c in right ==> IsForbidden(c) || IsEdge(c)
    ensures Lowered(left + a + right) == left + a + right
  {
    LoweredConcat(left + a, right);
    LoweredConcat(left, a);
    LoweredFixes(a);
    LoweredKeepsJunk(left);
    LoweredKeepsJunk(right);
  }

  /** At the ends of a text such characters, dots and underscores go. */
  lemma EndsAreDropped(left: string, a: string, right: string)
    requires Canonical(a) && forall c :: c in left || c in right ==> IsForbidden(c) || c in "._-"
    ensures NormalizeSegment(left + a + right) == Some(a)
  {
    assert forall c :: c in "._-" ==> IsEdge(c);
    assert a[|a| - 1] in a;
    assert left + a + right == left + (a + right);
    var l := StripLeavesStart(left, a + right);
    assert l + (a + right) == (l + a) + right;
    var r := StripLeavesEnd(l + a, right);
    EdgesAround(l, a, r);
  }

  lemma {:induction false} LoweredIgnoresCase(s: string)
    ensures Lowered(Lower(s)) == Lowered(s)
  {
    if s != [] {
      assert Lower(s)[1..] == Lower(s[1..]);
      LoweredIgnoresCase(s[1..]);
      assert LowerText(LowerChar(s[0])) == LowerText(s[0]);
    }
  }

  lemma StripKeepsCase(s: string)
    ensures Strip(Lower(s)) == Lower(Strip(s))
  {
    TrimStartKeepsCase(s);
    TrimEndKeepsCase(TrimStart(s, Blanks));
  }

  lemma {:induction false} TrimStartKeepsCase(s: string)
    ensures TrimStart(Lower(s), Blanks) == Lower(TrimStart(s, Blanks))
  {
    if s != [] {
      assert IsSpace(LowerChar(s[0])) == IsSpace(s[0]);
      assert Lower(s)[1..] == Lower(s[1..]);
      TrimStartKeepsCase(s[1..]);
    }
  }

  lemma {:induction false} TrimEndKeepsCase(s: string)
    ensures TrimEnd(Lower(s), Blanks) == Lower(TrimEnd(s, Blanks))
  {
    if s != [] {
      assert IsSpace(LowerChar(s[|s| - 1])) == IsSpace(s[|s| - 1]);
      assert Lower(s)[..|s| - 1] == Lower(s[..|s| - 1]);
      TrimEndKeepsCase(s[..|s| - 1]);
    }
  }

  /** The case of the letters does not matter. */
  lemma CaseIsIgnored(value: string)
    ensures NormalizeSegment(Lower(value)) == NormalizeSegment(value)
  {
    StripKeepsCase(value);
    LoweredIgnoresCase(Strip(value));
  }

  /** The two other characters whose lower case matters. */
  lemma SpecialCapitals()
    ensures NormalizeSegment("\U{0130}") == Some("i") && NormalizeSegment("\U{212A}") == Some("k")
  {
    var dotted, kelvin := "\U{0130}", "\U{212A}";
    TrimmedIsFixed(dotted, Blanks);
    TrimmedIsFixed(kelvin, Blanks);
    assert dotted[1..] == "" && kelvin[1..] == "";
    assert Lowered(dotted) == "i" + "\U{0307}" && Lowered(kelvin) == "k";
    JunkBecomesDashes("\U{0307}");
    ReplaceRunsConcat("i", "\U{0307}");
    assert ReplaceRuns("\U{0307}") == "-" && ReplaceRuns("i") == "i" && ReplaceRuns("k") == "k";
    CollapseConcat("i", "-");
    assert CollapseDashes("i") == "i" && CollapseDashes("-") == "-" && CollapseDashes("k") == "k";
    TrimTakesEnds("", "i", "-", EDGES);
    TrimmedIsFixed("k", EDGES);
  }

  const ALLOWED := "abcdefghijklmnopqrstuvwxyz0123456789_.=-"

  lemma ListedAreAllowed(i: nat)
    requires i < |ALLOWED|
    ensures IsAllowed(ALLOWED[i])
  {
    assert |ALLOWED| == 40;
  }

  /** The characters that a segment may hold. */
  lemma AllowedAreListed(c: char)
    requires IsAllowed(c)
    ensures c in ALLOWED
  {
    if 'a' <= c <= 'z' {
      assert ALLOWED[c as int - 'a' as int] == c;
    } else if '0' <= c <= '9' {
      assert ALLOWED[26 + c as int - '0' as int] == c;
    } else {
      assert ALLOWED[36] == '_' && ALLOWED[37] == '.' && ALLOWED[38] == '=' && ALLOWED[39] == '-';
    }
  }

  /** The letters and digits of a text. */
  function Letters(s: string): string {
    if s == [] then [] else (if IsAlnum(s[0]) then [s[0]] else []) + Letters(s[1..])
  }

  lemma {:induction false} LettersConcat(s: string, t: string)
    ensures Letters(s + t) == Letters(s) + Letters(t)
  {
    if s == [] {
      assert s + t == t;
    } else {
      calc {
        Letters(s + t);
        { assert (s + t)[1..] == s[1..] + t; }
        (if IsAlnum(s[0]) then [s[0]] else []) + Letters(s[1..] + t);
        { LettersConcat(s[1..], t); }
        (if IsAlnum(s[0]) then [s[0]] else []) + (Letters(s[1..]) + Letters(t));
        Letters(s) + Letters(t);
      }
    }
  }

  lemma {:induction false} ReplaceRunsKeepsLetters(s: string)
    ensures Letters(ReplaceRuns(s)) == Letters(s)
  {
    if s != [] {
      ReplaceRunsKeepsLetters(s[1..]);
      if !(|s| > 1 && !IsAllowed(s[0]) && !IsAllowed(s[1])) {
        var first, rest := if IsAllowed(s[0]) then s[0] else '-', ReplaceRuns(s[1..]);
        assert ReplaceRuns(s) == [first] + rest && ([first] + rest)[1..] == rest;
      }
    }
  }

  lemma {:induction false} CollapseKeepsLetters(s: string)
    ensures Letters(CollapseDashes(s)) == Letters(s)
  {
    if s != [] {
      CollapseKeepsLetters(s[1..]);
    }
  }

  lemma {:induction false} TrimStartKeepsLetters(s: string)
    ensures Letters(TrimStart(s, EDGES)) == Letters(s)
    ensures Letters(Lowered(TrimStart(s, Blanks))) == Letters(Lowered(s))
  {
    if s != [] {
      TrimStartKeepsLetters(s[1..]);
      LettersConcat(LowerText(s[0]), Lowered(s[1..]));
    }
  }

  lemma {:induction false} LoweredConcat(s: string, t: string)
    ensures Lowered(s + t) == Lowered(s) + Lowered(t)
  {
    if s == [] {
      assert s + t == t;
    } else {
      calc {
        Lowered(s + t);
        { assert (s + t)[1..] == s[1..] + t; }
        LowerText(s[0]) + Lowered(s[1..] + t);
        { LoweredConcat(s[1..], t); }
        LowerText(s[0]) + (Lowered(s[1..]) + Lowered(t));
        Lowered(s) + Lowered(t);
      }
    }
  }

  lemma {:induction false} TrimEndKeepsLetters(s: string)
    ensures Letters(TrimEnd(s, EDGES)) == Letters(s)
  {
    if s != [] && IsEdge(s[|s| - 1]) {
      var front, last := s[..|s| - 1], s[|s| - 1];
      TrimEndKeepsLetters(front);
      assert s == front + [last];
      LettersConcat(front, [last]);
      assert Letters([last]) == [];
    }
  }

  lemma SpaceHasNoLetters(c: char)
    requires IsSpace(c)
    ensures Letters(Lowered([c])) == []
  {
    assert Lowered([c]) == [c];
  }

  lemma {:induction false} StripEndKeepsLetters(s: string)
    ensures Letters(Lowered(TrimEnd(s, Blanks))) == Letters(Lowered(s))
  {
    if s != [] && IsSpace(s[|s| - 1]) {
      var front, last := s[..|s| - 1], s[|s| - 1];
      StripEndKeepsLetters(front);
      assert s == front + [last];
      SpaceHasNoLetters(last);
      LoweredConcat(front, [last]);
      LettersConcat(Lowered(front), Lowered([last]));
      assert Letters(Lowered(s)) == Letters(Lowered(front)) + [];
    }
  }

  /** Normalisation keeps the letters and digits of the lower-case text, in order; the text
      is rejected if the first character left is no letter or digit. */
  lemma NormalizeKeepsLetters(value: string)
    requires NormalizeSegment(value).Some?
    ensures Letters(NormalizeSegment(value).value) == Letters(Lowered(value))
  {
    var lowered := Lowered(Strip(value));
    TrimStartKeepsLetters(value);
    StripEndKeepsLetters(TrimStart(value, Blanks));
    ReplaceRunsKeepsLetters(lowered);
    CollapseKeepsLetters(ReplaceRuns(lowered));
    var single := CollapseDashes(ReplaceRuns(lowered));
    TrimStartKeepsLetters(single);
    TrimEndKeepsLetters(TrimStart(single, EDGES));
  }

  // ----- Scope keys ----------------------------------------------------------------------------------

  function BuildScopeKey(scopeType: string, scopeValue: string): Option<string> {
    var t, v := NormalizeSegment(scopeType), NormalizeSegment(scopeValue);
    if t.None? || v.None? then None else Some(t.value + "__" + v.value)
  }

  /** A scope key is a normal segment that holds the separator. */
  lemma ScopeKeyIsCanonical(scopeType: string, scopeValue: string)
    requires BuildScopeKey(scopeType, scopeValue).Some?
    ensures Canonical(BuildScopeKey(scopeType, scopeValue).value)
    ensures Contains(BuildScopeKey(scopeType, scopeValue).value, "__")
  {
    var t, v := NormalizeSegment(scopeType).value, NormalizeSegment(scopeValue).value;
    NormalizeIsCanonical(scopeType);
    NormalizeIsCanonical(scopeValue);
    ContainedAt(t, "__", v);
    var key := t + "__" + v;
    forall i | 0 < i < |key| && key[i] == '-' ensures !DashBefore(key, i) {
      if i < |t| {
        assert !DashBefore(t, i);
      } else if i > |t| + 2 {
        assert !DashBefore(v, i - |t| - 2);
      }
    }
  }

  /** The end of a type, behind a separator inside it, has moved to the front of the value. */
  ghost predicate Moves(t: string, v: string, u: string, w: string) {
    exists b :: MovesBy(t, v, u, w, b)
  }

  predicate MovesBy(t: string, v: string, u: string, w: string, b: string) {
    u == t + "__" + b && v == b + "__" + w
  }

  /** Two pairs of canonical types and any values have the same key exactly if they are equal
      or the end of one type has moved to the other's value. */
  lemma ScopeKeysMeetIff(t: string, v: string, u: string, w: string)
    requires Canonical(t) && Canonical(u)
    ensures t + "__" + v == u + "__" + w <==> (t == u && v == w) || Moves(t, v, u, w) || Moves(u, w, t, v)
  {
    if t + "__" + v == u + "__" + w {
      if |t| < |u| {
        LongerTypeMoves(t, v, u, w);
      } else if |u| < |t| {
        LongerTypeMoves(u, w, t, v);
      } else {
        var key := t + "__" + v;
        assert t == key[..|t|] && u == key[..|u|];
        assert v == key[|t| + 2..] && w == key[|u| + 2..];
      }
    }
    if Moves(t, v, u, w) {
      var b :| MovesBy(t, v, u, w, b);
      Joined(t, b, w);
    }
    if Moves(u, w, t, v) {
      var b :| MovesBy(u, w, t, v, b);
      Joined(u, b, v);
    }
  }

  lemma LongerTypeMoves(t: string, v: string, u: string, w: string)
    requires t + "__" + v == u + "__" + w && |t| < |u| && Canonical(u)
    ensures Moves(t, v, u, w)
  {
    var key, n := u + "__" + w, |t|;
    assert key == t + "__" + v;
    assert u[n] == key[n] == '_';
    assert n + 1 < |u|;
    assert u[n + 1] == key[n + 1] == '_';
    SplitsAround(u, n);
    var b := u[n + 2..];
    assert t == key[..n] && u[..n] == key[..n];
    assert v == key[n + 2..] && b + "__" + w == key[n + 2..];
    assert MovesBy(t, v, u, w, b);
  }

  /** Types without a separator are told apart: their keys split in one way only. */
  lemma ScopeKeysSplit(t: string, v: string, u: string, w: string)
    requires Canonical(t) && Canonical(u) && !Contains(t, "__") && !Contains(u, "__")
    requires t + "__" + v == u + "__" + w
    ensures t == u && v == w
  {
    ScopeKeysMeetIff(t, v, u, w);
    if Moves(t, v, u, w) {
      var b :| MovesBy(t, v, u, w, b);
      ContainedAt(t, "__", b);
    } else if Moves(u, w, t, v) {
      var b :| MovesBy(u, w, t, v, b);
      ContainedAt(u, "__", b);
    }
  }

  lemma SplitsAround(u: string, n: nat)
    requires n + 1 < |u| && u[n] == '_' && u[n + 1] == '_'
    ensures u == u[..n] + "__" + u[n + 2..]
  {
  }

  /** Two scopes share a key exactly if their normal forms are equal or so related. */
  lemma ScopesShareKeyIff(scopeType: string, scopeValue: string, otherType: string, otherValue: string)
    requires BuildScopeKey(scopeType, scopeValue).Some? && BuildScopeKey(otherType, otherValue).Some?
    ensures var t, v := NormalizeSegment(scopeType).value, NormalizeSegment(scopeValue).value;
      var u, w := NormalizeSegment(otherType).value, NormalizeSegment(otherValue).value;
      BuildScopeKey(scopeType, scopeValue) == BuildScopeKey(otherType, otherValue) <==>
        (t == u && v == w) || Moves(t, v, u, w) || Moves(u, w, t, v)
  {
    NormalizeIsCanonical(scopeType);
    NormalizeIsCanonical(otherType);
    ScopeKeysMeetIff(NormalizeSegment(scopeType).value, NormalizeSegment(scopeValue).value,
      NormalizeSegment(otherType).value, NormalizeSegment(otherValue).value);
  }

  /** Two scopes share a key when a separator inside a type can move into the value. */
  lemma ScopeKeysCollide(a: string, b: string, c: string)
    requires Canonical(a) && Canonical(b) && Canonical(c)
    ensures BuildScopeKey(a + "__" + b, c).Some?
    ensures BuildScopeKey(a + "__" + b, c) == BuildScopeKey(a, b + "__" + c)
  {
    var left, right := a + "__" + b, b + "__" + c;
    KeyOfCanonical(a, b);
    KeyOfCanonical(b, c);
    KeyOfCanonical(left, c);
    KeyOfCanonical(a, right);
    Joined(a, b, c);
  }

  lemma Joined(a: string, b: string, c: string)
    ensures (a + "__" + b) + "__" + c == a + "__" + (b + "__" + c)
  {
  }

  lemma KeyOfCanonical(t: string, v: string)
    requires Canonical(t) && Canonical(v)
    ensures BuildScopeKey(t, v) == Some(t + "__" + v) && Canonical(t + "__" + v)
  {
    CanonicalIsFixed(t);
    CanonicalIsFixed(v);
    ScopeKeyIsCanonical(t, v);
  }

  // ----- Dates ---------------------------------------------------------------------------------------

  datatype DateFields = DateFields(year: int, month: int, day: int)

  predicate IsLeap(year: int) {
    year % 4 == 0 && (year % 100 != 0 || year % 400 == 0)
  }

  predicate IsDate(d: DateFields) {
    && 1 <= d.year <= 9999
    && 1 <= d.month <= 12
    && 1 <= d.day <= DaysIn(d.year, d.month)
  }

  function DaysIn(year: int, month: int): int {
    if month == 2 then (if IsLeap(year) then 29 else 28)
    else if month in {4, 6, 9, 11} then 30
    else 31
  }

  type Date = d: DateFields | IsDate(d) witness DateFields(1, 1, 1)

  function Digit(n: int): char {
    ('0' as int + n % 10) as char
  }

  predicate IsDigit(c: char) {
    '0' <= c <= '9'
  }

  function Value(c: char): int {
    c as int - '0' as int
  }

  function TwoDigits(n: int): string {
    [Digit(n / 10), Digit(n)]
  }

  function IsoDate(d: Date): string {
    TwoDigits(d.year / 100) + TwoDigits(d.year) + "-" + TwoDigits(d.month) + "-" + TwoDigits(d.day)
  }

  predicate IsIsoShape(t: string) {
    && |t| == 10 && t[4] == '-' && t[7] == '-'
    && forall i :: 0 <= i < 10 && i != 4 && i != 7 ==> IsDigit(t[i])
  }

  function TwoDigitValue(t: string): int
    requires |t| == 2
  {
    10 * Value(t[0]) + Value(t[1])
  }

  /** `date.fromisoformat` on the form that `isoformat` prints. What it makes of other texts
      depends on the version of Python and is a parameter. */
  function ParseDate(t: string, other: string -> Option<Date>): Option<Date> {
    if IsIsoShape(t) then
      var year := 100 * TwoDigitValue(t[0..2]) + TwoDigitValue(t[2..4]);
      var d := DateFields(year, TwoDigitValue(t[5..7]), TwoDigitValue(t[8..10]));
      if IsDate(d) then Some(d) else None
    else other(t)
  }

  lemma TwoDigitsRoundTrip(n: int)
    requires 0 <= n < 100
    ensures IsDigit(Digit(n / 10)) && IsDigit(Digit(n)) && TwoDigitValue(TwoDigits(n)) == n
  {
  }

  lemma LowDigits(n: int)
    requires 0 <= n < 10000
    ensures TwoDigits(n) == TwoDigits(n % 100)
  {
    assert n == 100 * (n / 100) + n % 100;
    assert n / 10 == 10 * (n / 100) + (n % 100) / 10;
  }

  lemma ParsePrintedDate(d: Date, other: string -> Option<Date>)
    ensures IsIsoShape(IsoDate(d)) && ParseDate(IsoDate(d), other) == Some(d)
  {
    var t := IsoDate(d);
    LowDigits(d.year);
    TwoDigitsRoundTrip(d.year / 100);
    TwoDigitsRoundTrip(d.year % 100);
    TwoDigitsRoundTrip(d.month);
    TwoDigitsRoundTrip(d.day);
    assert t[0..2] == TwoDigits(d.year / 100) && t[2..4] == TwoDigits(d.year);
    assert t[5..7] == TwoDigits(d.month) && t[8..10] == TwoDigits(d.day);
  }

  /** The number that a row of digits stands for. */
  function Decimal(t: string): int {
    if t == [] then 0 else 10 * Decimal(t[..|t| - 1]) + Value(t[|t| - 1])
  }

  lemma TwoDecimals(a: char, b: char)
    ensures Decimal([a, b]) == 10 * Value(a) + Value(b)
  {
    assert [a, b][..1] == [a] && [a][..0] == [];
    assert Decimal([a]) == 10 * Decimal([]) + Value(a);
  }

  lemma FourDecimals(a: char, b: char, c: char, d: char)
    ensures Decimal([a, b, c, d]) == 100 * Decimal([a, b]) + Decimal([c, d])
  {
    TwoDecimals(a, b);
    TwoDecimals(c, d);
    assert [a, b, c, d][..3] == [a, b, c] && [a, b, c][..2] == [a, b];
    assert Decimal([a, b, c]) == 10 * Decimal([a, b]) + Value(c);
  }

  /** A date prints as its year in four digits, its month in two and its day in two. */
  lemma DatePrintsItsFields(d: Date)
    ensures var t := IsoDate(d);
      && IsIsoShape(t)
      && Decimal(t[..4]) == d.year && Decimal(t[5..7]) == d.month && Decimal(t[8..]) == d.day
  {
    var t := IsoDate(d);
    ParsePrintedDate(d, _ => None);
    assert t[..4] == [t[0], t[1], t[2], t[3]];
    assert t[5..7] == [t[5], t[6]] && t[8..] == [t[8], t[9]];
    FourDecimals(t[0], t[1], t[2], t[3]);
    TwoDecimals(t[0], t[1]);
    TwoDecimals(t[2], t[3]);
    TwoDecimals(t[5], t[6]);
    TwoDecimals(t[8], t[9]);
  }

  lemma DigitOfValue(a: char, b: char)
    requires IsDigit(a) && IsDigit(b)
    ensures 0 <= TwoDigitValue([a, b]) < 100 && TwoDigits(TwoDigitValue([a, b])) == [a, b]
  {
    var n := TwoDigitValue([a, b]);
    assert n / 10 == Value(a) && n % 10 == Value(b);
  }

  lemma YearOfTwo(high: int, low: int)
    requires 0 <= high < 100 && 0 <= low < 100
    ensures TwoDigits((100 * high + low) / 100) == TwoDigits(high) && TwoDigits(100 * high + low) == TwoDigits(low)
  {
    var n := 100 * high + low;
    assert n / 100 == high && n % 100 == low;
    LowDigits(n);
  }

  /** A text in the form of a date is a date exactly if some date prints so. */
  lemma ParsesExactlyPrintedDates(t: string, d: Date, other: string -> Option<Date>)
    requires IsIsoShape(t)
    ensures ParseDate(t, other) == Some(d) <==> t == IsoDate(d)
  {
    ParsePrintedDate(d, other);
    if ParseDate(t, other) == Some(d) {
      ParsedPrintsAgain(t, d, other);
    }
  }

  lemma ParsedPrintsAgain(t: string, d: Date, other: string -> Option<Date>)
    requires IsIsoShape(t) && ParseDate(t, other) == Some(d)
    ensures t == IsoDate(d)
  {
    assert t[0..2] == [t[0], t[1]] && t[2..4] == [t[2], t[3]] && t[5..7] == [t[5], t[6]] && t[8..10] == [t[8], t[9]];
    DigitOfValue(t[0], t[1]);
    DigitOfValue(t[2], t[3]);
    DigitOfValue(t[5], t[6]);
    DigitOfValue(t[8], t[9]);
    YearOfTwo(TwoDigitValue([t[0], t[1]]), TwoDigitValue([t[2], t[3]]));
    assert t == [t[0], t[1]] + [t[2], t[3]] + "-" + [t[5], t[6]] + "-" + [t[8], t[9]];
  }

  /** The days of each month. */
  lemma CalendarIsGregorian(year: int, month: int)
    ensures DaysIn(year, 2) == if year % 4 == 0 && (year % 100 == 0 ==> year % 400 == 0) then 29 else 28
    ensures month in {1, 3, 5, 7, 8, 10, 12} ==> DaysIn(year, month) == 31
    ensures month in {4, 6, 9, 11} ==> DaysIn(year, month) == 30
  {
  }

  // ----- Paths -----------------------------------------------------------------------------------------

  /** A path by its parts. */
  type Path = seq<string>

  datatype Spec = Spec(root: Path, dataset: string, scopeKey: string, deliveryDate: Date, runId: string,
    partition: string)

  predicate IsPartition(s: string) {
    s == "raw" || s == "staged" || s == "manifest" || s == "quarantine"
  }

  function NormalizePartitionName(value: string): Option<string> {
    var p := NormalizeSegment(value);
    if p.Some? && IsPartition(p.value) then p else None
  }

  /** The construction of a specification from a date already coerced. */
  function MakeSpec(root: Path, dataset: string, scopeKey: string, deliveryDate: Date, runId: string,
      partition: string): Option<Spec>
  {
    var d, s, r, p := NormalizeSegment(dataset), NormalizeSegment(scopeKey), NormalizeSegment(runId),
      NormalizePartitionName(partition);
    if d.None? || s.None? || r.None? || p.None? then None
    else Some(Spec(root, d.value, s.value, deliveryDate, r.value, p.value))
  }

  function PathOf(spec: Spec): Path {
    spec.root + [spec.dataset, spec.scopeKey, "delivery_date=" + IsoDate(spec.deliveryDate), "run=" + spec.runId,
      spec.partition]
  }

  /** The text before the first equals sign and the text after it. */
  function SplitAssignment(s: string): (string, string) {
    var i := IndexOfEquals(s);
    if i < |s| then (s[..i], s[i + 1..]) else ("", "")
  }

  function IndexOfEquals(s: string): (i: nat)
    ensures i <= |s|
    ensures i < |s| ==> s[i] == '='
    ensures forall k :: 0 <= k < i ==> s[k] != '='
  {
    if s == [] || s[0] == '=' then 0
    else 1 + IndexOfEquals(s[1..])
  }

  function ValidateParts(base: Path, parts: seq<string>, other: string -> Option<Date>): Option<Spec> {
    if |parts| != 5 then None
    else
      var dataset, scopeKey := NormalizeSegment(parts[0]), NormalizeSegment(parts[1]);
      if dataset.None? || scopeKey.None? || !Contains(scopeKey.value, "__") then None
      else
        var (datePrefix, dateValue), (runPrefix, runValue) := SplitAssignment(parts[2]), SplitAssignment(parts[3]);
        if datePrefix != "delivery_date" || runPrefix != "run" then None
        else
          var date, partition := ParseDate(dateValue, other), NormalizePartitionName(parts[4]);
          if date.None? || partition.None? then None
          else MakeSpec(base, dataset.value, scopeKey.value, date.value, runValue, partition.value)
  }

  function ValidateDeliveryPath(path: Path, root: Option<Path>, other: string -> Option<Date>): Option<Spec> {
    match root
    case None =>
      if |path| < 5 then None else ValidateParts(path[..|path| - 5], path[|path| - 5..], other)
    case Some(r) =>
      if !(r <= path) then None
      else
        var spec := ValidateParts(r, path[|r|..], other);
        if spec.Some? && PathOf(spec.value) != path then None else spec
  }

  // ----- The printer and the parser --------------------------------------------------------------------

  predicate WellFormed(spec: Spec) {
    && Canonical(spec.dataset) && Canonical(spec.scopeKey) && Canonical(spec.runId)
    && IsPartition(spec.partition)
  }

  lemma PartitionsAreCanonical(s: string)
    requires IsPartition(s)
    ensures Canonical(s)
  {
  }

  /** The specifications that can be built are the well-formed ones, and rebuilding one from
      its own fields gives it back. */
  lemma SpecsAreWellFormed(spec: Spec)
    ensures WellFormed(spec) <==>
      MakeSpec(spec.root, spec.dataset, spec.scopeKey, spec.deliveryDate, spec.runId, spec.partition) == Some(spec)
  {
    NormalizeIsIdempotent(spec.dataset, spec.dataset);
    NormalizeIsIdempotent(spec.scopeKey, spec.scopeKey);
    NormalizeIsIdempotent(spec.runId, spec.runId);
    if IsPartition(spec.partition) {
      PartitionsAreCanonical(spec.partition);
      CanonicalIsFixed(spec.partition);
    }
  }

  lemma MadeSpecsAreWellFormed(root: Path, dataset: string, scopeKey: string, date: Date, runId: string,
      partition: string)
    requires MakeSpec(root, dataset, scopeKey, date, runId, partition).Some?
    ensures WellFormed(MakeSpec(root, dataset, scopeKey, date, runId, partition).value)
  {
    NormalizeIsCanonical(dataset);
    NormalizeIsCanonical(scopeKey);
    NormalizeIsCanonical(runId);
  }

  lemma SplitPrinted(prefix: string, v: string)
    requires forall k :: 0 <= k < |prefix| ==> prefix[k] != '='
    ensures SplitAssignment(prefix + "=" + v) == (prefix, v)
  {
    var s, n := prefix + "=" + v, |prefix|;
    assert s[n] == '=' && s[..n] == prefix && s[n + 1..] == v;
    assert forall k :: 0 <= k < n ==> s[k] == prefix[k];
    assert IndexOfEquals(s) == n;
  }

  lemma SplitParts(spec: Spec)
    ensures SplitAssignment("delivery_date=" + IsoDate(spec.deliveryDate)) ==
      ("delivery_date", IsoDate(spec.deliveryDate))
    ensures SplitAssignment("run=" + spec.runId) == ("run", spec.runId)
  {
    assert "delivery_date=" + IsoDate(spec.deliveryDate) == "delivery_date" + "=" + IsoDate(spec.deliveryDate);
    SplitPrinted("delivery_date", IsoDate(spec.deliveryDate));
    assert "run=" + spec.runId == "run" + "=" + spec.runId;
    SplitPrinted("run", spec.runId);
  }

  lemma PartitionIsFixed(s: string)
    requires IsPartition(s)
    ensures NormalizePartitionName(s) == Some(s)
  {
    PartitionsAreCanonical(s);
    CanonicalIsFixed(s);
  }

  lemma ParsePrintedParts(spec: Spec, other: string -> Option<Date>)
    requires WellFormed(spec) && Contains(spec.scopeKey, "__")
    ensures ValidateParts(spec.root, PathOf(spec)[|spec.root|..], other) == Some(spec)
  {
    var parts := [spec.dataset, spec.scopeKey, "delivery_date=" + IsoDate(spec.deliveryDate), "run=" + spec.runId,
      spec.partition];
    assert PathOf(spec)[|spec.root|..] == parts;
    SpecsAreWellFormed(spec);
    CanonicalIsFixed(spec.dataset);
    CanonicalIsFixed(spec.scopeKey);
    PartitionIsFixed(spec.partition);
    SplitParts(spec);
    ParsePrintedDate(spec.deliveryDate, other);
  }

  lemma ValidatedParts(base: Path, parts: seq<string>, other: string -> Option<Date>)
    requires ValidateParts(base, parts, other).Some?
    ensures var spec := ValidateParts(base, parts, other).value;
      WellFormed(spec) && spec.root == base && Contains(spec.scopeKey, "__")
  {
    var dataset, scopeKey := NormalizeSegment(parts[0]), NormalizeSegment(parts[1]);
    NormalizeIsIdempotent(parts[1], scopeKey.value);
    MadeSpecsAreWellFormed(base, dataset.value, scopeKey.value,
      ParseDate(SplitAssignment(parts[2]).1, other).value, SplitAssignment(parts[3]).1,
      NormalizePartitionName(parts[4]).value);
  }

  /** Under a given root, validation accepts exactly the paths of the specifications with
      that root whose scope key holds the separator, and returns the specification. */
  lemma ValidatesExactlyPrintedPaths(path: Path, root: Path, other: string -> Option<Date>, spec: Spec)
    ensures ValidateDeliveryPath(path, Some(root), other) == Some(spec) <==>
      WellFormed(spec) && Contains(spec.scopeKey, "__") && spec.root == root && path == PathOf(spec)
  {
    if ValidateDeliveryPath(path, Some(root), other) == Some(spec) {
      ValidatedParts(root, path[|root|..], other);
    }
    if WellFormed(spec) && Contains(spec.scopeKey, "__") && spec.root == root && path == PathOf(spec) {
      ParsePrintedParts(spec, other);
      assert root <= path;
    }
  }

  /** Without a root, validation accepts more texts but returns the specification of a
      canonical path, which both ways of validating return again. */
  lemma ValidationWithoutRootIsCanonical(path: Path, other: string -> Option<Date>)
    requires ValidateDeliveryPath(path, None, other).Some?
    ensures var spec := ValidateDeliveryPath(path, None, other).value;
      && spec.root == path[..|path| - 5]
      && ValidateDeliveryPath(PathOf(spec), None, other) == Some(spec)
      && ValidateDeliveryPath(PathOf(spec), Some(spec.root), other) == Some(spec)
  {
    var spec := ValidateDeliveryPath(path, None, other).value;
    ValidatedParts(path[..|path| - 5], path[|path| - 5..], other);
    ParsePrintedParts(spec, other);
    var printed := PathOf(spec);
    assert printed[..|printed| - 5] == spec.root && printed[|printed| - 5..] == printed[|spec.root|..];
    assert spec.root <= printed;
  }

  lemma {:induction false} SplitsAtFirstEquals(s: string, prefix: string, v: string)
    requires prefix != "" && '=' !in prefix
    ensures SplitAssignment(s) == (prefix, v) <==> s == prefix + "=" + v
  {
    if s == prefix + "=" + v {
      SplitPrinted(prefix, v);
    }
    var i := IndexOfEquals(s);
    if i < |s| {
      assert s == s[..i] + "=" + s[i + 1..];
    }
  }

  /** The date and run segments that a specification may come from. */
  predicate DatedAndRun(parts: seq<string>, dateText: string, runText: string) {
    |parts| == 5 && parts[2] == "delivery_date=" + dateText && parts[3] == "run=" + runText
  }

  lemma MadeOfNormals(root: Path, dataset: string, scopeKey: string, date: Date, runText: string, partition: string)
    requires NormalizeSegment(dataset) == Some(dataset) && NormalizeSegment(scopeKey) == Some(scopeKey)
    requires NormalizePartitionName(partition) == Some(partition)
    ensures var r := NormalizeSegment(runText);
      MakeSpec(root, dataset, scopeKey, date, runText, partition) ==
        if r.None? then None else Some(Spec(root, dataset, scopeKey, date, r.value, partition))
  {
  }

  lemma PartsGiveFields(base: Path, parts: seq<string>, dateText: string, runText: string,
      other: string -> Option<Date>, spec: Spec)
    requires DatedAndRun(parts, dateText, runText)
    ensures ValidateParts(base, parts, other) == Some(spec) <==>
      spec.root == base && FieldsOf(parts, dateText, runText, other, spec)
  {
    AssignmentsSplit(parts, dateText, runText);
    var d, s, p := NormalizeSegment(parts[0]), NormalizeSegment(parts[1]), NormalizePartitionName(parts[4]);
    var date := ParseDate(dateText, other);
    if d.Some? && s.Some? && p.Some? && date.Some? {
      NormalizeIsIdempotent(parts[0], d.value);
      NormalizeIsIdempotent(parts[1], s.value);
      NormalizeIsIdempotent(parts[4], p.value);
      MadeOfNormals(base, d.value, s.value, date.value, runText, p.value);
    }
  }

  /** The segments of a path give the fields of a specification, each by its own rule. */
  ghost predicate FieldsOf(
    parts: seq<string>, dateText: string, runText: string, other: string -> Option<Date>, spec: Spec)
  {
    && DatedAndRun(parts, dateText, runText)
    && NormalizeSegment(parts[0]) == Some(spec.dataset)
    && NormalizeSegment(parts[1]) == Some(spec.scopeKey) && Contains(spec.scopeKey, "__")
    && ParseDate(dateText, other) == Some(spec.deliveryDate)
    && NormalizeSegment(runText) == Some(spec.runId)
    && NormalizeSegment(parts[4]) == Some(spec.partition) && IsPartition(spec.partition)
  }

  ghost predicate EndsInFields(
    path: Path, dateText: string, runText: string, other: string -> Option<Date>, spec: Spec)
  {
    |path| >= 5 && FieldsOf(path[|path| - 5..], dateText, runText, other, spec)
  }

  /** What validation accepts when no root is given. */
  lemma ValidatesWithoutRootIff(path: Path, other: string -> Option<Date>, spec: Spec)
    ensures ValidateDeliveryPath(path, None, other) == Some(spec) <==>
      && |path| >= 5 && spec.root == path[..|path| - 5]
      && exists dateText, runText :: EndsInFields(path, dateText, runText, other, spec)
  {
    if ValidateDeliveryPath(path, None, other) == Some(spec) {
      var dateText, runText := ValidatedHasDateAndRun(path, other);
      PartsGiveFields(spec.root, path[|path| - 5..], dateText, runText, other, spec);
      assert EndsInFields(path, dateText, runText, other, spec);
    }
    if |path| >= 5 && spec.root == path[..|path| - 5] {
      if dateText, runText :| EndsInFields(path, dateText, runText, other, spec) {
        PartsGiveFields(spec.root, path[|path| - 5..], dateText, runText, other, spec);
      }
    }
  }

  lemma AssignmentsSplit(parts: seq<string>, dateText: string, runText: string)
    requires |parts| == 5
    ensures DatedAndRun(parts, dateText, runText) <==>
      SplitAssignment(parts[2]) == ("delivery_date", dateText) && SplitAssignment(parts[3]) == ("run", runText)
  {
    SplitsAtFirstEquals(parts[2], "delivery_date", dateText);
    SplitsAtFirstEquals(parts[3], "run", runText);
    assert "delivery_date" + "=" + dateText == "delivery_date=" + dateText;
    assert "run" + "=" + runText == "run=" + runText;
  }

  /** Whatever is accepted has a date and a run in its segments. */
  lemma ValidatedHasDateAndRun(path: Path, other: string -> Option<Date>) returns (dateText: string, runText: string)
    requires ValidateDeliveryPath(path, None, other).Some?
    ensures |path| >= 5 && DatedAndRun(path[|path| - 5..], dateText, runText)
  {
    var parts := path[|path| - 5..];
    dateText, runText := SplitAssignment(parts[2]).1, SplitAssignment(parts[3]).1;
    AssignmentsSplit(parts, dateText, runText);
  }

  lemma PartitionNames(value: string, name: string)
    ensures NormalizePartitionName(value) == Some(name) <==>
      NormalizeSegment(value) == Some(name) && name in ["raw", "staged", "manifest", "quarantine"]
  {
  }

  /** The layout of the landing zone, by example. */
  lemma LayoutByExample(root: Path)
    ensures PathOf(Spec(root, "focus", "subscription__sub-123", DateFields(2026, 3, 20), "run-001", "raw")) ==
      root + ["focus", "subscription__sub-123", "delivery_date=2026-03-20", "run=run-001", "raw"]
  {
    var t := IsoDate(DateFields(2026, 3, 20));
    assert t == ['2', '0', '2', '6', '-', '0', '3', '-', '2', '0'];
    assert "delivery_date=" + t == "delivery_date=2026-03-20";
    assert "run=" + "run-001" == "run=run-001";
  }

  /** Distinct specifications under one root have distinct paths. */
  lemma PathsAreDistinct(s: Spec, t: Spec)
    requires s.root == t.root && PathOf(s) == PathOf(t)
    ensures s == t
  {
    var p, q, n := PathOf(s), PathOf(t), |s.root|;
    assert p[n] == q[n] && p[n + 1] == q[n + 1] && p[n + 2] == q[n + 2] && p[n + 3] == q[n + 3] && p[n + 4] == q[n + 4];
    assert IsoDate(s.deliveryDate) == p[n + 2][14..] && IsoDate(t.deliveryDate) == q[n + 2][14..];
    assert s.runId == p[n + 3][4..] && t.runId == q[n + 3][4..];
    ParsePrintedDate(s.deliveryDate, _ => None);
    ParsePrintedDate(t.deliveryDate, _ => None);
  }
}
