/** The string operations of Python that the models share: lower case, `strip` with and
    without arguments, and the test for a substring, each with the laws that say what it
    comes to on any text. */
module Text {

  /** The characters `str.strip()` removes: those that `str.isspace` accepts. */
  predicate IsSpace(c: char) {
    var n := c as int;
    || 0x09 <= n <= 0x0D || 0x1C <= n <= 0x20 || n == 0x85 || n == 0xA0 || n == 0x1680
    || 0x2000 <= n <= 0x200A || n == 0x2028 || n == 0x2029 || n == 0x202F || n == 0x205F || n == 0x3000
  }

  const SPACES :=
    "\t\n\U{0B}\U{0C}\r\U{1C}\U{1D}\U{1E}\U{1F} \U{85}\U{A0}\U{1680}\U{2000}\U{2001}\U{2002}\U{2003}\U{2004}"
    + "\U{2005}\U{2006}\U{2007}\U{2008}\U{2009}\U{200A}\U{2028}\U{2029}\U{202F}\U{205F}\U{3000}"

  lemma SpacesAreListed(c: char)
    ensures IsSpace(c) <==> c in SPACES
  {
    if IsSpace(c) {
      var n := c as int;
      var k := if n <= 0x0D then n - 9 else if n <= 0x20 then n - 0x17 else if n == 0x85 then 10
        else if n == 0xA0 then 11 else if n == 0x1680 then 12 else if n <= 0x200A then n - 0x2000 + 13
        else if n <= 0x2029 then n - 0x2028 + 24 else if n == 0x202F then 26 else if n == 0x205F then 27 else 28;
      assert SPACES[k] == c;
    }
  }

  function LowerChar(c: char): char {
    if 'A' <= c <= 'Z' then ((c as int) - ('A' as int) + ('a' as int)) as char else c
  }

  /** Lower case of the ASCII letters. */
  function Lower(s: string): (r: string)
    ensures |r| == |s| && forall i :: 0 <= i < |s| ==> r[i] == LowerChar(s[i])
  {
    seq(|s|, i requires 0 <= i < |s| => LowerChar(s[i]))
  }

  /** What a strip takes off the ends: blanks, or any of the given characters. */
  datatype Cut = Blanks | Any(chars: set<char>)

  predicate Cuts(cut: Cut, c: char) {
    match cut
    case Blanks => IsSpace(c)
    case Any(chars) => c in chars
  }

  function TrimStart(s: string, drop: Cut): string {
    if s != [] && Cuts(drop, s[0]) then TrimStart(s[1..], drop) else s
  }

  function TrimEnd(s: string, drop: Cut): string {
    if s != [] && Cuts(drop, s[|s| - 1]) then TrimEnd(s[..|s| - 1], drop) else s
  }

  /** `str.strip` with a given set of characters. */
  function Trim(s: string, drop: Cut): string {
    TrimEnd(TrimStart(s, drop), drop)
  }

  function Strip(s: string): string {
    Trim(s, Blanks)
  }

  /** Neither end is a character to drop. */
  predicate Trimmed(s: string, drop: Cut) {
    s == [] || (!Cuts(drop, s[0]) && !Cuts(drop, s[|s| - 1]))
  }

  lemma {:induction false} TrimStartShape(s: string, drop: Cut) returns (n: nat)
    ensures n <= |s| && TrimStart(s, drop) == s[n..]
    ensures n == |s| || !Cuts(drop, s[n])
    ensures forall i :: 0 <= i < n ==> Cuts(drop, s[i])
  {
    n := 0;
    if s != [] && Cuts(drop, s[0]) {
      n := TrimStartShape(s[1..], drop);
      n := n + 1;
    }
  }

  lemma {:induction false} TrimEndShape(s: string, drop: Cut) returns (n: nat)
    ensures n <= |s| && TrimEnd(s, drop) == s[..n]
    ensures n == 0 || !Cuts(drop, s[n - 1])
    ensures forall i :: n <= i < |s| ==> Cuts(drop, s[i])
  {
    n := |s|;
    if s != [] && Cuts(drop, s[|s| - 1]) {
      n := TrimEndShape(s[..|s| - 1], drop);
    }
  }

  /** Trimming leaves a contiguous part of the text with clean ends. */
  lemma TrimShape(s: string, drop: Cut) returns (a: nat, b: nat)
    ensures a <= b <= |s| && Trim(s, drop) == s[a..b]
    ensures Trimmed(Trim(s, drop), drop)
  {
    a := TrimStartShape(s, drop);
    var n := TrimEndShape(s[a..], drop);
    b := a + n;
    assert s[a..][..n] == s[a..b];
  }

  lemma TrimmedIsFixed(s: string, drop: Cut)
    requires Trimmed(s, drop)
    ensures Trim(s, drop) == s
  {
  }

  lemma TrimmedAway(s: string, drop: Cut)
    ensures Trim(s, drop) == [] <==> forall c :: c in s ==> Cuts(drop, c)
  {
    var a := TrimStartShape(s, drop);
    var n := TrimEndShape(s[a..], drop);
    if a < |s| {
      assert s[a..][0] == s[a] && s[a] in s;
    }
  }

  lemma {:induction false} TrimStartTakes(left: string, s: string, drop: Cut)
    requires forall c :: c in left ==> Cuts(drop, c)
    requires s == [] || !Cuts(drop, s[0])
    ensures TrimStart(left + s, drop) == s
  {
    if left == [] {
      assert left + s == s;
    } else {
      assert left[0] in left && (left + s)[1..] == left[1..] + s;
      TrimStartTakes(left[1..], s, drop);
    }
  }

  lemma {:induction false} TrimEndTakes(s: string, right: string, drop: Cut)
    requires forall c :: c in right ==> Cuts(drop, c)
    requires s == [] || !Cuts(drop, s[|s| - 1])
    ensures TrimEnd(s + right, drop) == s
  {
    if right == [] {
      assert s + right == s;
    } else {
      var n := |right| - 1;
      assert right[n] in right && (s + right)[..|s| + n] == s + right[..n];
      TrimEndTakes(s, right[..n], drop);
    }
  }

  /** A strip takes off exactly what is to be dropped at the two ends. */
  lemma TrimTakesEnds(left: string, core: string, right: string, drop: Cut)
    requires forall c :: c in left || c in right ==> Cuts(drop, c)
    requires core != [] && Trimmed(core, drop)
    ensures Trim(left + core + right, drop) == core
  {
    assert left + core + right == left + (core + right);
    TrimStartTakes(left, core + right, drop);
    TrimEndTakes(core, right, drop);
  }

  /** Lower case maps the alphabet letter by letter and nothing else. */
  lemma LowerMapsLetters(i: nat, c: char)
    requires i < 26
    ensures LowerChar("ABCDEFGHIJKLMNOPQRSTUVWXYZ"[i]) == "abcdefghijklmnopqrstuvwxyz"[i]
    ensures c !in "ABCDEFGHIJKLMNOPQRSTUVWXYZ" ==> LowerChar(c) == c
  {
    var upper := "ABCDEFGHIJKLMNOPQRSTUVWXYZ";
    if 'A' <= c <= 'Z' {
      assert upper[c as int - 'A' as int] == c;
    }
  }

  predicate Contains(s: string, part: string) {
    |part| <= |s| && (s[..|part|] == part || (s != [] && Contains(s[1..], part)))
  }

  /** Python's `in` on texts: the part stands somewhere in the whole. */
  lemma {:induction false} ContainsMeans(s: string, part: string)
    ensures Contains(s, part) <==> exists a: string, b: string :: s == a + part + b
  {
    if Contains(s, part) {
      var a, b := WhereContained(s, part);
    }
    if a: string, b: string :| s == a + part + b {
      ContainedAt(a, part, b);
    }
  }

  lemma {:induction false} WhereContained(s: string, part: string) returns (a: string, b: string)
    requires Contains(s, part)
    ensures s == a + part + b
  {
    if s[..|part|] == part {
      a, b := [], s[|part|..];
    } else {
      a, b := WhereContained(s[1..], part);
      a := [s[0]] + a;
    }
  }

  lemma {:induction false} ContainedAt(a: string, part: string, b: string)
    ensures Contains(a + part + b, part)
  {
    var s := a + part + b;
    if a == [] {
      assert s[..|part|] == part;
    } else {
      assert s[1..] == a[1..] + part + b;
      ContainedAt(a[1..], part, b);
    }
  }
}
