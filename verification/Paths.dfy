/** Whether one Windows path lies within another. */
module Paths {
  import opened Wrappers
  import opened Bytes

  predicate IsSeparator(c: char) {
    c == '\\' || c == '/'
  }

  function TrimSeparators(s: string): string {
    if s != "" && IsSeparator(s[|s| - 1]) then TrimSeparators(s[..|s| - 1]) else s
  }

  function LowerByte(b: byte): byte {
    if 0x41 <= b <= 0x5A then b + 0x20 else b
  }

  predicate EqIgnoreAsciiCase(a: seq<byte>, b: seq<byte>) {
    |a| == |b| && forall i | 0 <= i < |a| :: LowerByte(a[i]) == LowerByte(b[i])
  }

  /** Where Rust lets a string be cut: not before a continuation byte, and not past the end. */
  predicate CharBoundary(s: seq<byte>, i: nat) {
    i <= |s| && (i < |s| ==> !(0x80 <= s[i] < 0xC0))
  }

  /** `s.get(i..)` */
  function GetFrom(s: seq<byte>, i: nat): (r: Option<seq<byte>>)
    ensures r.Some? <==> CharBoundary(s, i)
  {
    if CharBoundary(s, i) then Some(s[i..]) else None
  }

  /** `s[..i]`, which ends the process unless `i` is a place to cut. */
  function SliceTo(s: seq<byte>, i: nat): seq<byte>
    requires CharBoundary(s, i)
  {
    s[..i]
  }

  predicate StartsWithSeparator(s: seq<byte>) {
    s != [] && (s[0] == 0x5C || s[0] == 0x2F)
  }

  /** The bytes compared as the code compares them; that the slice is always a legal one is part of this. */
  predicate WithinBytes(path: seq<byte>, root: seq<byte>) {
    || EqIgnoreAsciiCase(path, root)
    || (&& GetFrom(path, |root|).Some?
        && EqIgnoreAsciiCase(SliceTo(path, |root|), root)
        && StartsWithSeparator(GetFrom(path, |root|).value))
  }

  predicate WindowsPathWithin(path: string, root: string) {
    WithinBytes(Utf8(TrimSeparators(path)), Utf8(TrimSeparators(root)))
  }

  // ------------------------------------------------------------ from bytes to characters

  function LowerChar(c: char): char {
    if 'A' <= c <= 'Z' then (c as int + 0x20) as char else c
  }

  function Lower(s: string): (r: string)
    ensures |r| == |s| && forall i | 0 <= i < |s| :: r[i] == LowerChar(s[i])
  {
    if s == "" then "" else [LowerChar(s[0])] + Lower(s[1..])
  }

  function LowerBytes(s: seq<byte>): (r: seq<byte>)
    ensures |r| == |s| && forall i | 0 <= i < |s| :: r[i] == LowerByte(s[i])
  {
    if s == [] then [] else [LowerByte(s[0])] + LowerBytes(s[1..])
  }

  lemma LowerCharBytes(c: char)
    ensures LowerBytes(Utf8Char(c)) == Utf8Char(LowerChar(c))
  {
    var b, d := LowerBytes(Utf8Char(c)), Utf8Char(LowerChar(c));
    assert |b| == |d| && forall i | 0 <= i < |b| :: b[i] == d[i];
  }

  lemma LowerBytesConcat(a: seq<byte>, b: seq<byte>)
    ensures LowerBytes(a + b) == LowerBytes(a) + LowerBytes(b)
  {}

  /** Lower-casing ASCII bytes is lower-casing ASCII letters: no other character has such a byte in it. */
  lemma {:induction false} LowerThroughUtf8(s: string)
    ensures LowerBytes(Utf8(s)) == Utf8(Lower(s))
  {
    if s != "" {
      LowerCharBytes(s[0]);
      LowerThroughUtf8(s[1..]);
      LowerBytesConcat(Utf8Char(s[0]), Utf8(s[1..]));
      assert Lower(s)[1..] == Lower(s[1..]);
    }
  }

  lemma EqualBytesEqualText(a: string, b: string)
    ensures EqIgnoreAsciiCase(Utf8(a), Utf8(b)) <==> Lower(a) == Lower(b)
  {
    LowerThroughUtf8(a);
    LowerThroughUtf8(b);
    if EqIgnoreAsciiCase(Utf8(a), Utf8(b)) {
      assert LowerBytes(Utf8(a)) == LowerBytes(Utf8(b));
      Utf8Injective(Lower(a), Lower(b));
    }
    if Lower(a) == Lower(b) {
      var x, y := LowerBytes(Utf8(a)), LowerBytes(Utf8(b));
      assert x == y;
      forall i | 0 <= i < |x|
        ensures LowerByte(Utf8(a)[i]) == LowerByte(Utf8(b)[i])
      {
        assert x[i] == y[i];
      }
    }
  }

  lemma Continuation(c: char, i: nat)
    requires 0 < i < |Utf8Char(c)|
    ensures 0x80 <= Utf8Char(c)[i] < 0xC0
  {}

  /** A place to cut the bytes is a place between two characters. */
  lemma {:induction false} CutBetweenChars(s: string, i: nat) returns (k: nat)
    requires CharBoundary(Utf8(s), i)
    ensures k <= |s| && Utf8(s)[..i] == Utf8(s[..k]) && Utf8(s)[i..] == Utf8(s[k..])
  {
    if i == 0 {
      k := 0;
      assert s[..0] == "" && s[0..] == s;
    } else {
      var head, tail := Utf8Char(s[0]), Utf8(s[1..]);
      if i < |head| {
        Continuation(s[0], i);
        assert false;
      }
      var j := CutBetweenChars(s[1..], i - |head|);
      k := j + 1;
      assert s[..k][1..] == s[1..][..j] && s[k..] == s[1..][j..];
      assert Utf8(s)[..i] == head + tail[..i - |head|];
      assert Utf8(s)[i..] == tail[i - |head|..];
    }
  }

  lemma SeparatorFirst(s: string)
    ensures StartsWithSeparator(Utf8(s)) <==> s != "" && IsSeparator(s[0])
  {
    if s != "" {
      assert Utf8(s)[0] == Utf8Char(s[0])[0];
    }
  }

  /** The same relation on characters. */
  predicate WithinText(path: string, root: string) {
    || Lower(path) == Lower(root)
    || (|root| < |path| && Lower(path[..|root|]) == Lower(root) && IsSeparator(path[|root|]))
  }

  lemma BytesImplyText(path: string, root: string)
    requires WithinBytes(Utf8(path), Utf8(root))
    ensures WithinText(path, root)
  {
    var p, r := Utf8(path), Utf8(root);
    EqualBytesEqualText(path, root);
    if !EqIgnoreAsciiCase(p, r) {
      var k := CutBetweenChars(path, |r|);
      EqualBytesEqualText(path[..k], root);
      assert |Lower(path[..k])| == |Lower(root)|;
      SeparatorFirst(path[k..]);
    }
  }

  lemma CutAtSeparator(p: seq<byte>, head: seq<byte>, tail: seq<byte>, root: seq<byte>)
    requires p == head + tail && EqIgnoreAsciiCase(head, root) && StartsWithSeparator(tail)
    ensures WithinBytes(p, root)
  {
    assert p[|root|] == tail[0];
    assert p[..|root|] == head && p[|root|..] == tail;
  }

  lemma SeparatedImpliesBytes(head: string, tail: string, root: string)
    requires Lower(head) == Lower(root) && tail != "" && IsSeparator(tail[0])
    ensures WithinBytes(Utf8(head + tail), Utf8(root))
  {
    Utf8Concat(head, tail);
    EqualBytesEqualText(head, root);
    SeparatorFirst(tail);
    CutAtSeparator(Utf8(head + tail), Utf8(head), Utf8(tail), Utf8(root));
  }

  lemma TextImpliesBytes(path: string, root: string)
    requires WithinText(path, root)
    ensures WithinBytes(Utf8(path), Utf8(root))
  {
    if Lower(path) == Lower(root) {
      EqualBytesEqualText(path, root);
    } else {
      var head, tail := path[..|root|], path[|root|..];
      assert path == head + tail;
      SeparatedImpliesBytes(head, tail, root);
    }
  }

  lemma WithinIsText(path: string, root: string)
    ensures WindowsPathWithin(path, root) <==> WithinText(TrimSeparators(path), TrimSeparators(root))
  {
    if WindowsPathWithin(path, root) {
      BytesImplyText(TrimSeparators(path), TrimSeparators(root));
    }
    if WithinText(TrimSeparators(path), TrimSeparators(root)) {
      TextImpliesBytes(TrimSeparators(path), TrimSeparators(root));
    }
  }

  // ---------------------------------------------------------- from characters to components

  /** `Split` undone. */
  function Join(pieces: seq<string>, c: char): string
    requires |pieces| > 0
  {
    if |pieces| == 1 then pieces[0] else pieces[0] + [c] + Join(pieces[1..], c)
  }

  lemma {:induction false} SplitConcat(a: string, c: char, b: string)
    ensures Split(a + [c] + b, c) == Split(a, c) + Split(b, c)
  {
    var s := a + [c] + b;
    if a == "" {
      assert s[1..] == b;
    } else {
      assert s[1..] == a[1..] + [c] + b;
      SplitConcat(a[1..], c, b);
    }
  }

  lemma JoinPrepends(first: char, pieces: seq<string>, c: char)
    requires |pieces| > 0
    ensures Join([[first] + pieces[0]] + pieces[1..], c) == [first] + Join(pieces, c)
  {
    var more := [[first] + pieces[0]] + pieces[1..];
    assert more[1..] == pieces[1..];
  }

  lemma {:induction false} JoinSplit(s: string, c: char)
    ensures Join(Split(s, c), c) == s
  {
    if s != "" {
      var rest := Split(s[1..], c);
      JoinSplit(s[1..], c);
      if s[0] == c {
        assert ([""] + rest)[1..] == rest;
      } else {
        JoinPrepends(s[0], rest, c);
      }
    }
  }

  lemma {:induction false} JoinConcat(a: seq<string>, b: seq<string>, c: char)
    requires |a| > 0 && |b| > 0
    ensures Join(a + b, c) == Join(a, c) + [c] + Join(b, c)
  {
    if |a| == 1 {
      assert (a + b)[1..] == b;
    } else {
      assert (a + b)[1..] == a[1..] + b;
      JoinConcat(a[1..], b, c);
    }
  }

  /** Being equal or going on with a separator is having the same components first. */
  lemma PrefixOfComponents(p: string, r: string, c: char)
    ensures (p == r || r + [c] <= p) <==> Split(r, c) <= Split(p, c)
  {
    if p != r && r + [c] <= p {
      var rest := p[|r| + 1..];
      assert p == r + [c] + rest;
      SplitConcat(r, c, rest);
    }
    if Split(r, c) <= Split(p, c) {
      var more := Split(p, c)[|Split(r, c)|..];
      assert Split(p, c) == Split(r, c) + more;
      JoinSplit(p, c);
      JoinSplit(r, c);
      if more != [] {
        JoinConcat(Split(r, c), more, c);
      } else {
        assert Split(p, c) == Split(r, c);
      }
    }
  }

  /** Written with this separator only. */
  predicate OnlySeparator(s: string, c: char) {
    forall x | x in s :: IsSeparator(x) ==> x == c
  }

  function Components(path: string, c: char): seq<string> {
    Split(Lower(TrimSeparators(path)), c)
  }

  lemma {:induction false} TrimIsPrefix(s: string)
    ensures TrimSeparators(s) <= s
  {
    if s != "" && IsSeparator(s[|s| - 1]) {
      TrimIsPrefix(s[..|s| - 1]);
    }
  }

  lemma LowerPrefix(p: string, r: string, c: char)
    requires IsSeparator(c) && OnlySeparator(p, c)
    ensures WithinText(p, r) <==> Lower(p) == Lower(r) || Lower(r) + [c] <= Lower(p)
  {
    var lp, lr := Lower(p), Lower(r);
    if |r| < |p| {
      assert Lower(p[..|r|]) == lp[..|r|];
      assert p[|r|] in p;
      assert IsSeparator(p[|r|]) <==> lp[|r|] == c;
    }
  }

  /**
   * For paths written with one separator, containment is exactly that the root's components, but for the case
   * of ASCII letters, are the path's first components: never a mere prefix of the text.
   */
  lemma WithinExactly(path: string, root: string, c: char)
    requires (c == '\\' || c == '/') && OnlySeparator(path, c) && OnlySeparator(root, c)
    ensures WindowsPathWithin(path, root) <==> Components(root, c) <= Components(path, c)
  {
    WithinIsText(path, root);
    TrimIsPrefix(path);
    var p, r := TrimSeparators(path), TrimSeparators(root);
    assert OnlySeparator(p, c) by {
      assert forall x | x in p :: x in path;
    }
    LowerPrefix(p, r, c);
    PrefixOfComponents(Lower(p), Lower(r), c);
  }

  // --------------------------------------------------------------- as a relation on paths

  lemma WithinReflexive(path: string)
    ensures WindowsPathWithin(path, path)
  {
    WithinIsText(path, path);
  }

  /** Whatever the separators. */
  lemma WithinTransitive(a: string, b: string, c: string)
    requires WindowsPathWithin(a, b) && WindowsPathWithin(b, c)
    ensures WindowsPathWithin(a, c)
  {
    WithinIsText(a, b);
    WithinIsText(b, c);
    WithinIsText(a, c);
    TextTransitive(TrimSeparators(a), TrimSeparators(b), TrimSeparators(c));
  }

  lemma TextTransitive(a: string, b: string, c: string)
    requires WithinText(a, b) && WithinText(b, c)
    ensures WithinText(a, c)
  {
    var la, lb, lc := Lower(a), Lower(b), Lower(c);
    assert |la| == |a| && |lb| == |b| && |lc| == |c|;
    if |c| < |b| {
      assert Lower(b[..|c|]) == lb[..|c|] && Lower(a[..|c|]) == la[..|c|];
      assert |b| < |a| ==> Lower(a[..|b|]) == la[..|b|];
      assert la[|c|] == lb[|c|];
    }
  }

  /** Two paths within each other are the same but for case and trailing separators. */
  lemma WithinAntisymmetric(a: string, b: string)
    requires WindowsPathWithin(a, b) && WindowsPathWithin(b, a)
    ensures Lower(TrimSeparators(a)) == Lower(TrimSeparators(b))
  {
    WithinIsText(a, b);
    WithinIsText(b, a);
    assert |Lower(TrimSeparators(a))| == |TrimSeparators(a)|;
    assert |Lower(TrimSeparators(b))| == |TrimSeparators(b)|;
  }

  // ------------------------------------------------------------- told character by character

  /** A backslash or a slash. */
  predicate Slash(c: char) {
    c as int == 92 || c as int == 47
  }

  /** The same character, or the same ASCII letter in another case. */
  predicate SameLetter(a: char, b: char) {
    || a == b
    || ('A' <= a <= 'Z' && b as int == a as int + 32)
    || ('A' <= b <= 'Z' && a as int == b as int + 32)
  }

  predicate SameText(a: string, b: string) {
    |a| == |b| && forall i | 0 <= i < |a| :: SameLetter(a[i], b[i])
  }

  /** What is left of a path without the slashes it ends in. */
  predicate Bare(p: string, path: string) {
    p <= path && (forall i | |p| <= i < |path| :: Slash(path[i])) && (p != "" ==> !Slash(p[|p| - 1]))
  }

  lemma {:induction false} TrimmedIsBare(path: string, p: string)
    ensures Bare(p, path) <==> p == TrimSeparators(path)
  {
    if path != "" && IsSeparator(path[|path| - 1]) {
      var shorter := path[..|path| - 1];
      TrimmedIsBare(shorter, p);
      assert Bare(p, path) ==> |p| < |path|;
      assert p <= shorter <==> p <= path && |p| < |path|;
      assert forall i | 0 <= i < |shorter| :: shorter[i] == path[i];
    } else {
      assert path != "" ==> !Slash(path[|path| - 1]);
      assert |p| == |path| && p <= path ==> p == path;
    }
  }

  lemma LowerIsSame(a: string, b: string)
    ensures Lower(a) == Lower(b) <==> SameText(a, b)
  {
    if SameText(a, b) {
      assert forall i | 0 <= i < |a| :: Lower(a)[i] == Lower(b)[i];
    }
    if Lower(a) == Lower(b) {
      assert |a| == |b|;
      forall i | 0 <= i < |a|
        ensures SameLetter(a[i], b[i])
      {
        assert Lower(a)[i] == Lower(b)[i];
      }
    }
  }

  /** Containment, for all paths: the same text but for case, or that text, a slash, and more. */
  lemma WithinMeans(path: string, root: string, p: string, r: string)
    requires Bare(p, path) && Bare(r, root)
    ensures WindowsPathWithin(path, root)
       <==> SameText(p, r) || (|r| < |p| && SameText(p[..|r|], r) && Slash(p[|r|]))
  {
    TrimmedIsBare(path, p);
    TrimmedIsBare(root, r);
    WithinIsText(path, root);
    LowerIsSame(p, r);
    if |r| < |p| {
      LowerIsSame(p[..|r|], r);
    }
  }
}
