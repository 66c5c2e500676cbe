/** Values shared by every module of the model: JavaScript's optional values
    (`null` / `undefined` versus a present value), truthiness, and the `??`
    operator. */
module Common {

  /** A value that may be absent (`null` or `undefined` in the source). */
  datatype Option<+T> = None | Some(value: T) {

    /** `x ?? fallback` on a present-or-absent value. */
    function GetOr(fallback: T): T {
      match this
      case Some(v) => v
      case None => fallback
    }
  }

  /** `a ?? b`: the first operand unless it is null or undefined. */
  function Coalesce<T>(a: Option<T>, b: Option<T>): Option<T> {
    if a.Some? then a else b
  }

  /** JavaScript truthiness of an optional string: present and not "". */
  predicate Truthy(s: Option<string>) {
    s.Some? && s.value != ""
  }

  /** Looking a key up in a record/dictionary: `m[k]` is undefined when absent. */
  function Lookup<K, V>(m: map<K, V>, k: K): Option<V> {
    if k in m then Some(m[k]) else None
  }

  /** `Array.prototype.indexOf` / `findIndex` by equality: -1 when absent. */
  function IndexOf<T(==)>(s: seq<T>, x: T): (i: int)
    ensures -1 <= i < |s|
    ensures i == -1 <==> x !in s
    ensures 0 <= i ==> s[i] == x && x !in s[..i]
  {
    if s == [] then -1
    else if s[0] == x then 0
    else
      var j := IndexOf(s[1..], x);
      assert j >= 0 ==> s[1..][..j] == s[1..j + 1];
      if j == -1 then -1 else j + 1
  }

  /** `Array.prototype.filter(e => e !== x)`. */
  function RemoveAll<T(==)>(s: seq<T>, x: T): (r: seq<T>)
    ensures x !in r
    ensures |r| <= |s|
  {
    if s == [] then []
    else if s[0] == x then RemoveAll(s[1..], x)
    else [s[0]] + RemoveAll(s[1..], x)
  }

  /** What remains is every other element. */
  lemma {:induction false} RemoveAllMembers<T>(s: seq<T>, x: T)
    ensures forall y :: y in RemoveAll(s, x) <==> y in s && y != x
  {
    if s != [] {
      RemoveAllMembers(s[1..], x);
      assert s == [s[0]] + s[1..];
    }
  }

  /** Removing the only occurrence of an element: what remains is the
      sequence with that position cut out. */
  lemma RemoveAllSingle<T>(s: seq<T>, i: nat)
    requires i < |s|
    requires s[i] !in s[..i] && s[i] !in s[i + 1..]
    ensures RemoveAll(s, s[i]) == s[..i] + s[i + 1..]
  {
    assert s == s[..i] + [s[i]] + s[i + 1..];
    RemoveAllAround(s[..i], s[i], s[i + 1..]);
  }

  /** Removing the one occurrence of `x` from `a + [x] + b`. */
  lemma {:induction false} RemoveAllAround<T>(a: seq<T>, x: T, b: seq<T>)
    requires x !in a && x !in b
    ensures RemoveAll(a + [x] + b, x) == a + b
  {
    if a == [] {
      assert ([x] + b)[1..] == b;
      RemoveAllAbsent(b, x);
    } else {
      assert (a + [x] + b)[1..] == a[1..] + [x] + b;
      RemoveAllAround(a[1..], x, b);
      assert a + b == [a[0]] + (a[1..] + b);
    }
  }

  /** Removing an element that is not there changes nothing. */
  lemma {:induction false} RemoveAllAbsent<T>(s: seq<T>, x: T)
    requires x !in s
    ensures RemoveAll(s, x) == s
  {
    if s != [] {
      RemoveAllAbsent(s[1..], x);
    }
  }

  /** No element occurs twice. */
  predicate Distinct<T(==)>(s: seq<T>) {
    forall i, j :: 0 <= i < j < |s| ==> s[i] != s[j]
  }

  /** `a` is obtained from `b` by deleting elements (order kept). */
  predicate IsSubsequence<T(==)>(a: seq<T>, b: seq<T>)
    decreases |b|
  {
    if a == [] then true
    else if b == [] then false
    else if a[0] == b[0] then IsSubsequence(a[1..], b[1..])
    else IsSubsequence(a, b[1..])
  }

  /** A subsequence of `c` is a subsequence of `c` with one element put in
      front. */
  lemma {:induction false} SubsequenceCons<T>(a: seq<T>, x: T, c: seq<T>)
    requires IsSubsequence(a, c)
    ensures IsSubsequence(a, [x] + c)
    decreases |c|, 1
  {
    assert ([x] + c)[1..] == c;
    if a != [] && a[0] == x {
      SubsequenceDropHead(a, c);
    }
  }

  /** Dropping the first element of a subsequence keeps it a subsequence. */
  lemma {:induction false} SubsequenceDropHead<T>(a: seq<T>, c: seq<T>)
    requires a != [] && IsSubsequence(a, c)
    ensures IsSubsequence(a[1..], c)
    decreases |c|, 0
  {
    if a[0] == c[0] {
      SubsequenceCons(a[1..], c[0], c[1..]);
    } else {
      SubsequenceDropHead(a, c[1..]);
      SubsequenceCons(a[1..], c[0], c[1..]);
    }
    assert [c[0]] + c[1..] == c;
  }

  /** Subsequences compose. */
  lemma {:induction false} SubsequenceTransitive<T>(a: seq<T>, b: seq<T>, c: seq<T>)
    requires IsSubsequence(a, b) && IsSubsequence(b, c)
    ensures IsSubsequence(a, c)
    decreases |c|
  {
    if a != [] {
      if b[0] == c[0] && a[0] == b[0] {
        SubsequenceTransitive(a[1..], b[1..], c[1..]);
      } else {
        if b[0] == c[0] {
          SubsequenceTransitive(a, b[1..], c[1..]);
        } else {
          SubsequenceTransitive(a, b, c[1..]);
        }
        if a[0] == c[0] {
          SubsequenceDropHead(a, c[1..]);
        }
      }
    }
  }

  /** `Array.prototype.filter(keep)`. */
  function Filter<T(!new)>(s: seq<T>, keep: T -> bool): (r: seq<T>)
    ensures |r| <= |s|
    ensures forall x :: x in r <==> x in s && keep(x)
  {
    if s == [] then []
    else if keep(s[0]) then [s[0]] + Filter(s[1..], keep)
    else Filter(s[1..], keep)
  }

  /** What `filter` keeps stays in its original order. */
  lemma {:induction false} FilterIsSubsequence<T(!new)>(s: seq<T>, keep: T -> bool)
    ensures IsSubsequence(Filter(s, keep), s)
  {
    if s != [] {
      FilterIsSubsequence(s[1..], keep);
      if keep(s[0]) {
        assert Filter(s, keep)[1..] == Filter(s[1..], keep);
      } else {
        SubsequenceCons(Filter(s[1..], keep), s[0], s[1..]);
        assert [s[0]] + s[1..] == s;
      }
    }
  }
}
