/** Identifiers: which are valid, how composite keys are built from them, and the order maps keep them in; and errors. */
module Ids {
  import opened Wrappers
  import opened Bytes

  /** `len()` of a Rust string. */
  function ByteLen(s: string): nat {
    |Utf8(s)|
  }

  predicate ValidId(value: string) {
    !Blank(value) && (forall c | c in value :: !IsControl(c)) && ByteLen(value) <= 256
  }

  /** Some character of the text is not white space. */
  ghost predicate HasText(value: string) {
    exists i :: 0 <= i < |value| && !IsWhitespace(value[i])
  }

  /** What an id must be: text of at most 256 bytes without control characters. */
  ghost predicate ProperId(value: string) {
    && HasText(value) && |Utf8(value)| <= 256
    && forall i | 0 <= i < |value| :: 0x20 <= value[i] as int < 0x7F || value[i] as int >= 0xA0
  }

  lemma BlankExactly(value: string)
    ensures Blank(value) <==> !HasText(value)
  {
    if !Blank(value) {
      var c :| c in value && !IsWhitespace(c);
      var i :| 0 <= i < |value| && value[i] == c;
    }
    if i :| 0 <= i < |value| && !IsWhitespace(value[i]) {
      assert value[i] in value;
    }
  }

  lemma ValidIdExactly(value: string)
    ensures ValidId(value) <==> ProperId(value)
  {
    BlankExactly(value);
    if ValidId(value) {
      assert forall i | 0 <= i < |value| :: value[i] in value && !IsControl(value[i]);
    }
    if ProperId(value) {
      assert forall c | c in value :: !IsControl(c);
    }
  }

  datatype AuthError =
    | InvalidState
    | InvalidTtl
    | InvalidActor
    | InvalidTenant
    | NoScopes
    | Unauthorized
    | InsufficientScope(scope: string)
    | LockTimeout
    | Io
    | Json

  function CheckId(value: string): Option<AuthError> {
    if ValidId(value) then None else Some(InvalidTenant)
  }

  function CheckActor(value: string): Option<AuthError> {
    if ValidId(value) then None else Some(InvalidActor)
  }

  predicate AllValidIds(ids: set<string>) {
    forall id | id in ids :: ValidId(id)
  }

  function CheckIds(ids: set<string>): Option<AuthError> {
    if AllValidIds(ids) then None else Some(InvalidTenant)
  }

  /** The first complaint, if any. */
  function First(a: Option<AuthError>, b: Option<AuthError>): Option<AuthError> {
    if a.Some? then a else b
  }

  // ---------------------------------------------------------------- composite keys

  function Digit(n: nat): char
    requires n < 10
  {
    '0' + n as char
  }

  function Decimal(n: nat): (s: string)
    ensures |s| > 0
  {
    if n < 10 then [Digit(n)] else Decimal(n / 10) + [Digit(n % 10)]
  }

  /** The last digit and the digits before it, when there are any. */
  lemma DecimalParts(n: nat)
    ensures n < 10 <==> |Decimal(n)| == 1
    ensures Decimal(n)[|Decimal(n)| - 1] == Digit(n % 10)
    ensures n >= 10 ==> Decimal(n)[..|Decimal(n)| - 1] == Decimal(n / 10)
  {}

  lemma {:induction false} DecimalInjective(a: nat, b: nat)
    requires Decimal(a) == Decimal(b)
    ensures a == b
  {
    DecimalParts(a);
    DecimalParts(b);
    assert a % 10 == b % 10;
    if a >= 10 {
      DecimalInjective(a / 10, b / 10);
    }
  }

  lemma {:induction false} DecimalHasNoColon(n: nat)
    ensures ':' !in Decimal(n)
  {
    if n >= 10 {
      DecimalHasNoColon(n / 10);
    }
  }

  /** A text that says how long it is: the length in bytes, a colon, the text itself. */
  function Prefixed(s: string): string {
    Decimal(ByteLen(s)) + ":" + s
  }

  function TenantKey(organizationId: string, resourceId: string): string {
    Prefixed(organizationId) + ":" + resourceId
  }

  function UsageKeyFor(organizationId: string, workspaceId: Option<string>, usageKey: string): string {
    Prefixed(organizationId) + ":" + Prefixed(workspaceId.UnwrapOr("")) + ":" + usageKey
  }

  lemma NotPastColon(a: string, b: string, x: string, y: string)
    requires ':' !in b && a + ":" + x == b + ":" + y
    ensures |b| <= |a|
  {
    assert (a + ":" + x)[|a|] == ':';
    assert forall i | 0 <= i < |b| :: (b + ":" + y)[i] == b[i];
  }

  /** The texts before the first colon agree, and so do the texts after it. */
  lemma FirstColon(a: string, b: string, x: string, y: string)
    requires ':' !in a && ':' !in b
    requires a + ":" + x == b + ":" + y
    ensures a == b && x == y
  {
    NotPastColon(a, b, x, y);
    NotPastColon(b, a, y, x);
    var s := a + ":" + x;
    assert a == s[..|a|] && b == s[..|b|];
    assert x == s[|a| + 1..] && y == s[|b| + 1..];
  }

  /** Of two texts that start the same string, those with the same number of bytes are the same. */
  lemma SameBytesSamePrefix(a: string, b: string, x: string, y: string)
    requires a + x == b + y && ByteLen(a) == ByteLen(b)
    ensures a == b && x == y
  {
    if |a| <= |b| {
      SplitAgrees(a, b, x, y);
    } else {
      SplitAgrees(b, a, y, x);
    }
  }

  lemma SplitAgrees(a: string, b: string, x: string, y: string)
    requires a + x == b + y && |a| <= |b| && ByteLen(a) == ByteLen(b)
    ensures a == b && x == y
  {
    var s := a + x;
    var extra := b[|a|..];
    assert a == s[..|a|] && b == s[..|b|];
    assert b == a + extra;
    Utf8Concat(a, extra);
    assert extra == "";
    assert x == s[|a|..] && y == s[|b|..];
  }

  lemma PrefixedSplits(a: string, b: string, x: string, y: string)
    requires Prefixed(a) + x == Prefixed(b) + y
    ensures a == b && x == y
  {
    DecimalHasNoColon(ByteLen(a));
    DecimalHasNoColon(ByteLen(b));
    assert Prefixed(a) + x == Decimal(ByteLen(a)) + ":" + (a + x);
    assert Prefixed(b) + y == Decimal(ByteLen(b)) + ":" + (b + y);
    FirstColon(Decimal(ByteLen(a)), Decimal(ByteLen(b)), a + x, b + y);
    DecimalInjective(ByteLen(a), ByteLen(b));
    SameBytesSamePrefix(a, b, x, y);
  }

  lemma PrefixedColonSplits(a: string, b: string, x: string, y: string)
    requires Prefixed(a) + (":" + x) == Prefixed(b) + (":" + y)
    ensures a == b && x == y
  {
    PrefixedSplits(a, b, ":" + x, ":" + y);
    assert x == (":" + x)[1..] && y == (":" + y)[1..];
  }

  /** No two pairs of texts share a composite key, colons and digits in them notwithstanding. */
  lemma TenantKeyInjective(o1: string, r1: string, o2: string, r2: string)
    requires TenantKey(o1, r1) == TenantKey(o2, r2)
    ensures o1 == o2 && r1 == r2
  {
    assert TenantKey(o1, r1) == Prefixed(o1) + (":" + r1);
    assert TenantKey(o2, r2) == Prefixed(o2) + (":" + r2);
    PrefixedColonSplits(o1, o2, r1, r2);
  }

  lemma UsageKeyNests(o: string, w: Option<string>, k: string)
    ensures UsageKeyFor(o, w, k) == Prefixed(o) + (":" + TenantKey(w.UnwrapOr(""), k))
  {
    var p, q := Prefixed(o), Prefixed(w.UnwrapOr(""));
    assert p + ":" + q + ":" + k == p + (":" + (q + ":" + k));
  }

  /** No two usage keys coincide, unless one names the empty workspace and the other none. */
  lemma UsageKeyInjective(o1: string, w1: Option<string>, k1: string, o2: string, w2: Option<string>, k2: string)
    requires UsageKeyFor(o1, w1, k1) == UsageKeyFor(o2, w2, k2)
    ensures o1 == o2 && w1.UnwrapOr("") == w2.UnwrapOr("") && k1 == k2
  {
    UsageKeyNests(o1, w1, k1);
    UsageKeyNests(o2, w2, k2);
    PrefixedColonSplits(o1, o2, TenantKey(w1.UnwrapOr(""), k1), TenantKey(w2.UnwrapOr(""), k2));
    TenantKeyInjective(w1.UnwrapOr(""), k1, w2.UnwrapOr(""), k2);
  }

  // -------------------------------------------------------------- the order of maps

  predicate LexLe(a: string, b: string) {
    a == "" || (b != "" && (a[0] < b[0] || (a[0] == b[0] && LexLe(a[1..], b[1..]))))
  }

  lemma {:induction false} LexTotal(a: string, b: string)
    ensures LexLe(a, b) || LexLe(b, a)
    ensures LexLe(a, b) && LexLe(b, a) ==> a == b
  {
    if a != "" && b != "" && a[0] == b[0] {
      LexTotal(a[1..], b[1..]);
      assert a == [a[0]] + a[1..] && b == [b[0]] + b[1..];
    }
  }

  lemma {:induction false} LexTransitive(a: string, b: string, c: string)
    requires LexLe(a, b) && LexLe(b, c)
    ensures LexLe(a, c)
  {
    if a != "" && a[0] == b[0] && b[0] == c[0] {
      LexTransitive(a[1..], b[1..], c[1..]);
    }
  }

  predicate IsLeast(m: string, s: set<string>) {
    m in s && forall x | x in s :: LexLe(m, x)
  }

  lemma {:induction false} LeastExists(s: set<string>)
    requires s != {}
    ensures exists m :: IsLeast(m, s)
    decreases |s|
  {
    var x :| x in s;
    var rest := s - {x};
    LexTotal(x, x);
    if rest == {} {
      assert s == {x};
      assert IsLeast(x, s);
    } else {
      LeastExists(rest);
      var m :| IsLeast(m, rest);
      LexTotal(x, m);
      var least := if LexLe(x, m) then x else m;
      forall y | y in s
        ensures LexLe(least, y)
      {
        if y in rest && least == x {
          LexTransitive(x, m, y);
        }
      }
      assert IsLeast(least, s);
    }
  }

  lemma LeastUnique(a: string, b: string, s: set<string>)
    requires IsLeast(a, s) && IsLeast(b, s)
    ensures a == b
  {
    LexTotal(a, b);
  }

  /** The first key of a sorted map whose keys are `s`. */
  function Least(s: set<string>): (m: string)
    requires s != {}
    ensures IsLeast(m, s)
  {
    LeastExists(s);
    assert forall a, b | IsLeast(a, s) && IsLeast(b, s) :: a == b by {
      forall a, b | IsLeast(a, s) && IsLeast(b, s)
        ensures a == b
      {
        LeastUnique(a, b, s);
      }
    }
    var m :| m in s && IsLeast(m, s);
    m
  }

  /** The keys `s` in the order a sorted map yields them. */
  function Sorted(s: set<string>): (keys: seq<string>)
    ensures forall k :: k in keys <==> k in s
    decreases |s|
  {
    if s == {} then []
    else
      var m := Least(s);
      [m] + Sorted(s - {m})
  }

  /** The order is the order of the texts, and no key comes twice. */
  lemma {:induction false} SortedAscends(s: set<string>)
    ensures |Sorted(s)| == |s|
    ensures forall i, j | 0 <= i < j < |s| :: Sorted(s)[i] != Sorted(s)[j] && LexLe(Sorted(s)[i], Sorted(s)[j])
    decreases |s|
  {
    if s != {} {
      var m := Least(s);
      var rest := s - {m};
      SortedAscends(rest);
      assert Sorted(s) == [m] + Sorted(rest);
      forall i, j | 0 <= i < j < |s|
        ensures Sorted(s)[i] != Sorted(s)[j] && LexLe(Sorted(s)[i], Sorted(s)[j])
      {
        assert Sorted(s)[j] == Sorted(rest)[j - 1];
        if i == 0 {
          assert Sorted(rest)[j - 1] in rest;
        }
      }
    }
  }
}
