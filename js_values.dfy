/** The JavaScript values and built-ins that the server and the dashboard rely on:
    JSON values, truthiness (the operand test of `||`, `!` and `if`), `String(n)` for
    integers, `String.prototype.includes`, `toLowerCase` restricted to ASCII, and
    `Array.prototype.filter`. */
module JsValues {

  datatype Option<T> = None | Some(value: T)

  /** A JSON value as `res.json()` parses it or `JSON.stringify` sends it.
      Numbers are integers here. */
  datatype Json =
    | JNull
    | JBool(b: bool)
    | JNum(n: int)
    | JStr(s: string)
    | JArr(items: seq<Json>)
    | JObj(fields: map<string, Json>)

  /** JavaScript truthiness: `null`, `false`, `0` and `""` are falsy; every array and
      object is truthy. */
  predicate Truthy(v: Json) {
    match v
    case JNull => false
    case JBool(b) => b
    case JNum(n) => n != 0
    case JStr(s) => s != ""
    case JArr(_) => true
    case JObj(_) => true
  }

  /** `typeof v === 'object'`: true of `null`, of arrays and of objects. */
  predicate IsObjectType(v: Json) {
    v.JNull? || v.JArr? || v.JObj?
  }

  /** Property access `v.key` on a value that is not `null`; `None` is `undefined`.
      Strings, numbers, booleans and arrays carry none of the keys used here. */
  function Property(v: Json, key: string): Option<Json> {
    if v.JObj? && key in v.fields then Some(v.fields[key]) else None
  }

  /** Truthiness of a property read; `undefined` is falsy. */
  predicate TruthyProperty(v: Json, key: string) {
    var p := Property(v, key); p.Some? && Truthy(p.value)
  }

  // ---------------------------------------------------------------------------
  // String(n) for integers

  function DigitChar(d: nat): char
    requires d < 10
  {
    (d + '0' as int) as char
  }

  function DigitValue(c: char): nat {
    if '0' <= c <= '9' then (c as int - '0' as int) as nat else 0
  }

  predicate IsDigit(c: char) {
    '0' <= c <= '9'
  }

  /** The decimal digits of `n`, most significant first, without leading zeros. */
  function NatText(n: nat): (r: string)
    ensures |r| >= 1
    ensures forall i :: 0 <= i < |r| ==> IsDigit(r[i])
  {
    if n < 10 then [DigitChar(n)] else NatText(n / 10) + [DigitChar(n % 10)]
  }

  /** The value of a string of decimal digits (a proof device for NatText). */
  function NatValue(s: string): nat {
    if s == [] then 0 else NatValue(s[..|s| - 1]) * 10 + DigitValue(s[|s| - 1])
  }

  lemma {:induction false} NatTextRoundTrip(n: nat)
    ensures NatValue(NatText(n)) == n
  {
    if n >= 10 {
      var r := NatText(n);
      assert r == NatText(n / 10) + [DigitChar(n % 10)];
      assert r[..|r| - 1] == NatText(n / 10);
      assert DigitValue(r[|r| - 1]) == n % 10;
      NatTextRoundTrip(n / 10);
    }
  }

  /** The value of an optionally signed string of decimal digits. */
  function IntValue(s: string): int {
    if s != [] && s[0] == '-' then -(NatValue(s[1..]) as int) else NatValue(s)
  }

  /** `String(n)` for an integer `n`: a minus sign for negative numbers, then the
      digits; it reads back as `n`. */
  function IntText(n: int): (r: string)
    ensures |r| >= 1
    ensures r[0] == '-' <==> n < 0
    ensures IntValue(r) == n
  {
    if n < 0 then
      NatTextRoundTrip(-n);
      assert ("-" + NatText(-n))[1..] == NatText(-n);
      "-" + NatText(-n)
    else
      NatTextRoundTrip(n);
      NatText(n)
  }

  /** Different integers have different decimal texts. */
  lemma IntTextInjective(a: int, b: int)
    requires IntText(a) == IntText(b)
    ensures a == b
  {
    assert IntValue(IntText(a)) == a && IntValue(IntText(b)) == b;
  }

  /** `String(v)`, which is also what a template literal `${v}` inserts. Arrays join
      their elements with commas, writing `null` elements as nothing. */
  function JsString(v: Json): (r: string)
    ensures v.JStr? ==> r == v.s
    ensures v.JNum? ==> IntValue(r) == v.n
    ensures v.JObj? ==> r == "[object Object]"
  {
    match v
    case JNull => "null"
    case JBool(b) => if b then "true" else "false"
    case JNum(n) => IntText(n)
    case JStr(s) => s
    case JArr(items) => JoinItems(items)
    case JObj(_) => "[object Object]"
  }

  function JoinItems(items: seq<Json>): string
    decreases items
  {
    if items == [] then ""
    else
      var head := if items[0].JNull? then "" else JsString(items[0]);
      if |items| == 1 then head else head + "," + JoinItems(items[1..])
  }

  // ---------------------------------------------------------------------------
  // s.includes(t)

  predicate InfixAt(s: string, t: string, i: int) {
    0 <= i && i + |t| <= |s| && s[i..i + |t|] == t
  }

  /** `s.includes(t)`: `t` occurs in `s` as a contiguous block. */
  predicate Includes(s: string, t: string) {
    exists i :: 0 <= i <= |s| && InfixAt(s, t, i)
  }

  /** Every string includes the empty string. */
  lemma IncludesEmpty(s: string)
    ensures Includes(s, "")
  {
    assert InfixAt(s, "", 0);
  }

  /** If `s` includes `t` and `t` includes `u`, then `s` includes `u`. */
  lemma IncludesTransitive(s: string, t: string, u: string)
    requires Includes(s, t) && Includes(t, u)
    ensures Includes(s, u)
  {
    var i :| 0 <= i <= |s| && InfixAt(s, t, i);
    var j :| 0 <= j <= |t| && InfixAt(t, u, j);
    assert 0 <= i && i + |t| <= |s| && s[i..i + |t|] == t;
    assert 0 <= j && j + |u| <= |t| && t[j..j + |u|] == u;
    forall k | 0 <= k < |u| ensures s[i + j..i + j + |u|][k] == u[k] {
      assert u[k] == t[j + k] == s[i + j + k];
    }
    assert InfixAt(s, u, i + j);
  }

  // ---------------------------------------------------------------------------
  // toLowerCase, for ASCII letters

  function LowerChar(c: char): char {
    if 'A' <= c <= 'Z' then (c as int + 32) as char else c
  }

  /** `s.toLowerCase()` on ASCII: each upper-case letter becomes its lower-case
      letter, no upper-case letter is left, and every other character is kept. */
  function Lower(s: string): (r: string)
    ensures |r| == |s|
    ensures forall i :: 0 <= i < |r| ==> !('A' <= r[i] <= 'Z')
    ensures forall i :: 0 <= i < |s| && 'A' <= s[i] <= 'Z' ==> 'a' <= r[i] <= 'z' && r[i] as int - s[i] as int == 32
    ensures forall i :: 0 <= i < |s| && !('A' <= s[i] <= 'Z') ==> r[i] == s[i]
  {
    seq(|s|, i requires 0 <= i < |s| => LowerChar(s[i]))
  }

  /** Lower-casing twice is lower-casing once. */
  lemma LowerIdempotent(s: string)
    ensures Lower(Lower(s)) == Lower(s)
  {
  }

  /** Lowering a whole string lowers each of its blocks. */
  lemma LowerSlice(s: string, i: int, j: int)
    requires 0 <= i <= j <= |s|
    ensures Lower(s)[i..j] == Lower(s[i..j])
  {
  }

  /** Lower-casing keeps every occurrence: if `s` includes `t`, then `Lower(s)`
      includes `Lower(t)`. */
  lemma LowerPreservesIncludes(s: string, t: string)
    requires Includes(s, t)
    ensures Includes(Lower(s), Lower(t))
  {
    var i :| 0 <= i <= |s| && InfixAt(s, t, i);
    assert 0 <= i && i + |t| <= |s|;
    LowerSlice(s, i, i + |t|);
    assert InfixAt(Lower(s), Lower(t), i);
  }

  // ---------------------------------------------------------------------------
  // Array.prototype.filter

  /** `xs.filter(p)`: the elements of `xs` that satisfy `p`, in their order. */
  function Filter<T>(xs: seq<T>, p: T -> bool): (r: seq<T>)
    ensures |r| <= |xs|
    ensures forall x :: x in r ==> x in xs && p(x)
    ensures forall x :: x in xs && p(x) ==> x in r
    ensures multiset(r) <= multiset(xs)
    ensures forall x :: x in xs ==> multiset(r)[x] == if p(x) then multiset(xs)[x] else 0
  {
    if xs == [] then []
    else
      assert xs == [xs[0]] + xs[1..];
      if p(xs[0]) then [xs[0]] + Filter(xs[1..], p)
      else Filter(xs[1..], p)
  }

  /** The positions of `xs` whose element passes `p`. */
  function Passing<T>(xs: seq<T>, p: T -> bool): set<int> {
    set i | 0 <= i < |xs| && p(xs[i])
  }

  /** `xs.filter(p).length` is the number of positions whose element passes `p`. */
  lemma {:induction false} FilterLength<T>(xs: seq<T>, p: T -> bool)
    ensures |Filter(xs, p)| == |Passing(xs, p)|
    decreases |xs|
  {
    if xs != [] {
      var front, last := xs[..|xs| - 1], xs[|xs| - 1];
      assert xs == front + [last];
      FilterLength(front, p);
      FilterAppendOne(front, last, p);
      PassingAppendOne(front, last, p);
    }
  }

  /** The passing positions of a list with one more element at the end. */
  lemma PassingAppendOne<T>(xs: seq<T>, y: T, p: T -> bool)
    ensures |Passing(xs + [y], p)| == |Passing(xs, p)| + if p(y) then 1 else 0
  {
    var whole := Passing(xs + [y], p);
    var parts := Passing(xs, p) + (if p(y) then {|xs|} else {});
    forall i ensures i in whole <==> i in parts {
      if 0 <= i < |xs| {
        assert (xs + [y])[i] == xs[i];
      }
    }
    assert whole == parts;
    assert |xs| !in Passing(xs, p);
  }

  /** Filtering a list with one more element at the end keeps what the list keeps,
      then the element if it passes. */
  lemma {:induction false} FilterAppendOne<T>(xs: seq<T>, y: T, p: T -> bool)
    ensures |Filter(xs + [y], p)| == |Filter(xs, p)| + if p(y) then 1 else 0
    decreases |xs|
  {
    if xs == [] {
      assert Filter([y], p) == (if p(y) then [y] else []) + Filter([], p);
    } else {
      var t := xs + [y];
      assert t[0] == xs[0] && t[1..] == xs[1..] + [y];
      FilterAppendOne(xs[1..], y, p);
      assert |Filter(t, p)| == |Filter(t[1..], p)| + if p(xs[0]) then 1 else 0;
      assert |Filter(xs, p)| == |Filter(xs[1..], p)| + if p(xs[0]) then 1 else 0;
    }
  }

  /** `a` can be obtained from `b` by deleting elements. */
  predicate IsSubsequence<T(==)>(a: seq<T>, b: seq<T>)
    decreases |b|
  {
    if a == [] then true
    else if b == [] then false
    else (a[0] == b[0] && IsSubsequence(a[1..], b[1..])) || IsSubsequence(a, b[1..])
  }

  /** `xs.filter(p)` only deletes elements: it is a subsequence of `xs`. */
  lemma {:induction false} FilterIsSubsequence<T>(xs: seq<T>, p: T -> bool)
    ensures IsSubsequence(Filter(xs, p), xs)
    decreases |xs|
  {
    if xs != [] {
      FilterIsSubsequence(xs[1..], p);
    }
  }

  /** Filtering with a stronger test keeps a subsequence of what a weaker test keeps. */
  lemma {:induction false} FilterStronger<T>(xs: seq<T>, p: T -> bool, q: T -> bool)
    requires forall x :: p(x) ==> q(x)
    ensures IsSubsequence(Filter(xs, p), Filter(xs, q))
    decreases |xs|
  {
    if xs != [] {
      FilterStronger(xs[1..], p, q);
      if p(xs[0]) {
        assert Filter(xs, q) == [xs[0]] + Filter(xs[1..], q);
      } else if q(xs[0]) {
        var fq := Filter(xs, q);
        assert fq == [xs[0]] + Filter(xs[1..], q);
        assert fq[1..] == Filter(xs[1..], q);
        SkipHeadKeepsSubsequence(Filter(xs, p), fq);
      }
    }
  }

  /** A subsequence of the tail is a subsequence of the whole. */
  lemma SkipHeadKeepsSubsequence<T>(a: seq<T>, b: seq<T>)
    requires b != [] && IsSubsequence(a, b[1..])
    ensures IsSubsequence(a, b)
  {
  }

  /** A test that every element passes keeps the whole sequence. */
  lemma {:induction false} FilterKeepsAll<T>(xs: seq<T>, p: T -> bool)
    requires forall x :: x in xs ==> p(x)
    ensures Filter(xs, p) == xs
    decreases |xs|
  {
    if xs != [] {
      assert forall x :: x in xs[1..] ==> x in xs;
      FilterKeepsAll(xs[1..], p);
    }
  }
}
