/** Trimming and case, on the ASCII letters and blanks that symbols and exchanges use. */
module Text {

  predicate Blank(c: char) {
    c == ' ' || '\t' <= c <= '\r'
  }

  function Lower(c: char): char {
    if 'A' <= c <= 'Z' then (c as int + 32) as char else c
  }

  function Upper(c: char): char {
    if 'a' <= c <= 'z' then (c as int - 32) as char else c
  }

  /** Case folded away, for comparing. */
  function Fold(s: string): string {
    seq(|s|, i requires 0 <= i < |s| => Lower(s[i]))
  }

  function ToUpper(s: string): string {
    seq(|s|, i requires 0 <= i < |s| => Upper(s[i]))
  }

  function TrimLeft(s: string): string {
    if s != [] && Blank(s[0]) then TrimLeft(s[1..]) else s
  }

  function TrimRight(s: string): string {
    if s != [] && Blank(s[|s| - 1]) then TrimRight(s[..|s| - 1]) else s
  }

  function Trim(s: string): string {
    TrimRight(TrimLeft(s))
  }

  /** Trimmed and in upper case, as cache keys are. */
  function Norm(s: string): string {
    ToUpper(Trim(s))
  }

  predicate Trimmed(s: string) {
    s != [] ==> !Blank(s[0]) && !Blank(s[|s| - 1])
  }

  lemma {:induction false} TrimLeftStarts(s: string)
    ensures TrimLeft(s) != [] ==> !Blank(TrimLeft(s)[0])
  {
    if s != [] && Blank(s[0]) { TrimLeftStarts(s[1..]); }
  }

  lemma {:induction false} TrimRightEnds(s: string)
    requires s != [] ==> !Blank(s[0])
    ensures Trimmed(TrimRight(s))
  {
    if s != [] && Blank(s[|s| - 1]) { TrimRightEnds(s[..|s| - 1]); }
  }

  lemma TrimTrims(s: string)
    ensures Trimmed(Trim(s)) && Trim(Trim(s)) == Trim(s)
  {
    TrimLeftStarts(s);
    TrimRightEnds(TrimLeft(s));
  }

  /** Normalising is idempotent, and trimming first changes nothing. */
  lemma NormIdempotent(s: string)
    ensures Norm(Norm(s)) == Norm(s) && Norm(Trim(s)) == Norm(s)
  {
    TrimTrims(s);
    var t := ToUpper(Trim(s));
    assert Trimmed(t);
    assert Trim(t) == t;
    assert ToUpper(t) == t;
  }

  // ---------------------------------------------------------------- what trimming and folding mean

  lemma BlankIff(c: char)
    ensures Blank(c) <==> c in {' ', '\t', '\n', '\U{0B}', '\U{0C}', '\r'}
  {
  }

  /** Blanks up to `i` and from `j` on, and none at either end in between. */
  predicate IsCore(s: string, i: nat, j: nat) {
    && i <= j <= |s| && (i == j ==> i == |s|)
    && (forall k :: 0 <= k < |s| && (k < i || j <= k) ==> Blank(s[k]))
    && (i < j ==> !Blank(s[i]) && !Blank(s[j - 1]))
  }

  lemma {:induction false} FindCore(s: string) returns (i: nat, j: nat)
    ensures IsCore(s, i, j)
  {
    i, j := 0, |s|;
    while i < |s| && Blank(s[i])
      invariant i <= |s| && forall k :: 0 <= k < i ==> Blank(s[k])
    {
      i := i + 1;
    }
    while i < j && Blank(s[j - 1])
      invariant i <= j <= |s| && (i < |s| ==> i < j) && forall k :: j <= k < |s| ==> Blank(s[k])
    {
      j := j - 1;
    }
  }

  /** Trimming takes off exactly the blanks at both ends. */
  lemma {:induction false} TrimCore(s: string, i: nat, j: nat)
    requires IsCore(s, i, j)
    ensures Trim(s) == s[i..j]
  {
    TrimLeftTo(s, i);
    TrimRightTo(s[i..], j - i);
    assert s[i..][..j - i] == s[i..j];
  }

  /** `c` is `s` without the blanks at both ends. */
  ghost predicate CoreOf(s: string, c: string) {
    exists i: nat, j: nat :: IsCore(s, i, j) && c == s[i..j]
  }

  lemma TrimIsCore(s: string, c: string)
    ensures CoreOf(s, c) <==> c == Trim(s)
  {
    var i, j := FindCore(s);
    TrimCore(s, i, j);
    if CoreOf(s, c) {
      var i': nat, j': nat :| IsCore(s, i', j') && c == s[i'..j'];
      TrimCore(s, i', j');
    }
  }

  lemma {:induction false} TrimLeftTo(s: string, i: nat)
    requires i <= |s| && (forall k :: 0 <= k < i ==> Blank(s[k])) && (i < |s| ==> !Blank(s[i]))
    ensures TrimLeft(s) == s[i..]
  {
    if i > 0 { TrimLeftTo(s[1..], i - 1); }
  }

  lemma {:induction false} TrimRightTo(s: string, j: nat)
    requires j <= |s| && (forall k :: j <= k < |s| ==> Blank(s[k])) && (0 < j ==> !Blank(s[j - 1]))
    ensures TrimRight(s) == s[..j]
  {
    if j < |s| {
      TrimRightTo(s[..|s| - 1], j);
      assert s[..|s| - 1][..j] == s[..j];
    }
  }

  /** The same character, or the two cases of one letter. */
  predicate SameLetter(a: char, b: char) {
    || a == b
    || ('A' <= a <= 'Z' && b as int == a as int + 32)
    || ('A' <= b <= 'Z' && a as int == b as int + 32)
  }

  predicate SameLetters(a: string, b: string) {
    |a| == |b| && forall i :: 0 <= i < |a| ==> SameLetter(a[i], b[i])
  }

  /** Folding and upper case both forget case and nothing else. */
  lemma FoldForgetsCase(a: string, b: string)
    ensures Fold(a) == Fold(b) <==> SameLetters(a, b)
    ensures ToUpper(a) == ToUpper(b) <==> SameLetters(a, b)
    ensures |ToUpper(a)| == |a| && forall i :: 0 <= i < |a| ==> SameLetter(a[i], ToUpper(a)[i])
    ensures forall i :: 0 <= i < |a| ==> !('a' <= ToUpper(a)[i] <= 'z')
  {
    forall i | 0 <= i < |a| && i < |b|
      ensures Lower(a[i]) == Lower(b[i]) <==> SameLetter(a[i], b[i])
      ensures Upper(a[i]) == Upper(b[i]) <==> SameLetter(a[i], b[i])
    {
    }
    if SameLetters(a, b) {
      assert Fold(a) == Fold(b);
      assert ToUpper(a) == ToUpper(b);
    }
    if Fold(a) == Fold(b) {
      forall i | 0 <= i < |a| ensures SameLetter(a[i], b[i]) { assert Fold(a)[i] == Fold(b)[i]; }
    }
    if ToUpper(a) == ToUpper(b) {
      forall i | 0 <= i < |a| ensures SameLetter(a[i], b[i]) { assert ToUpper(a)[i] == ToUpper(b)[i]; }
    }
  }
}
