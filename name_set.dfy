/**
 * The ordered set of capability names, `std::set<std::string>`.
 *
 * A `std::set` keeps its elements in ascending order of `std::string`'s
 * `operator<`, which compares character by character and puts a proper prefix
 * first. Its abstract state is therefore a strictly increasing sequence, and
 * `insert` and `erase` are functions on that sequence.
 */
module NameSet {

  /** Lexicographic order of `std::string`: the first differing character decides; a proper prefix is smaller. */
  function Less(a: string, b: string): (r: bool)
    ensures r ==> a != b
    ensures |a| < |b| && a == b[..|a|] ==> r
    ensures forall k :: 0 <= k < |a| && k < |b| && a[..k] == b[..k] && a[k] != b[k] ==> (r <==> a[k] < b[k])
    decreases |a|
  {
    if |b| == 0 then false
    else if |a| == 0 then true
    else if a[0] != b[0] then
      assert forall k :: 0 < k <= |a| && k <= |b| ==> a[..k][0] == a[0] && b[..k][0] == b[0];
      a[0] < b[0]
    else
      assert forall k :: 0 < k <= |a| && k <= |b| && a[..k] == b[..k] ==> a[1..][..k - 1] == a[..k][1..] == b[..k][1..] == b[1..][..k - 1];
      Less(a[1..], b[1..])
  }

  lemma {:induction false} LessIrreflexive(a: string)
    ensures !Less(a, a)
    decreases |a|
  {
    if |a| > 0 {
      LessIrreflexive(a[1..]);
    }
  }

  lemma {:induction false} LessTransitive(a: string, b: string, c: string)
    requires Less(a, b) && Less(b, c)
    ensures Less(a, c)
    decreases |a|
  {
    if |a| > 0 && a[0] == b[0] && b[0] == c[0] {
      LessTransitive(a[1..], b[1..], c[1..]);
    }
  }

  lemma {:induction false} LessTotal(a: string, b: string)
    requires a != b
    ensures Less(a, b) || Less(b, a)
    decreases |a|
  {
    if |a| > 0 && |b| > 0 && a[0] == b[0] {
      assert a == [a[0]] + a[1..] && b == [b[0]] + b[1..];
      LessTotal(a[1..], b[1..]);
    }
  }

  lemma LessAsymmetric(a: string, b: string)
    requires Less(a, b)
    ensures !Less(b, a)
  {
    if Less(b, a) {
      LessTransitive(a, b, a);
      LessIrreflexive(a);
    }
  }

  /** The order in which a `std::set` holds and visits its elements. */
  predicate StrictlySorted(xs: seq<string>) {
    forall i, j :: 0 <= i < j < |xs| ==> Less(xs[i], xs[j])
  }

  /** `xs` holds exactly the elements of `s`, in ascending order: how a `std::set` with contents `s` iterates. */
  ghost predicate Enumerates(xs: seq<string>, s: set<string>) {
    StrictlySorted(xs) && forall y :: y in xs <==> y in s
  }

  lemma SortedHeadBelowTail(xs: seq<string>)
    requires StrictlySorted(xs) && |xs| > 0
    ensures forall y :: y in xs[1..] ==> Less(xs[0], y)
  {
    forall y | y in xs[1..] ensures Less(xs[0], y) {
      var k :| 0 <= k < |xs[1..]| && xs[1..][k] == y;
      assert xs[k + 1] == y;
    }
  }

  lemma SortedCons(x: string, ys: seq<string>)
    requires StrictlySorted(ys)
    requires forall y :: y in ys ==> Less(x, y)
    ensures StrictlySorted([x] + ys)
  {
    var r := [x] + ys;
    forall i, j | 0 <= i < j < |r| ensures Less(r[i], r[j]) {
      if i == 0 {
        assert r[j] == ys[j - 1];
        assert r[j] in ys;
      } else {
        assert r[i] == ys[i - 1] && r[j] == ys[j - 1];
      }
    }
  }

  /** `std::set::insert`: the ascending sequence of the old elements and `x`. */
  function Insert(xs: seq<string>, x: string): (r: seq<string>)
    requires StrictlySorted(xs)
    ensures StrictlySorted(r)
    ensures forall y :: y in r <==> y in xs || y == x
  {
    if xs == [] then [x]
    else if x == xs[0] then xs
    else if Less(x, xs[0]) then
      SortedHeadBelowTail(xs);
      forall y | y in xs ensures Less(x, y) {
        if y != xs[0] {
          LessTransitive(x, xs[0], y);
        }
      }
      SortedCons(x, xs);
      [x] + xs
    else
      LessTotal(x, xs[0]);
      SortedHeadBelowTail(xs);
      var rest := Insert(xs[1..], x);
      SortedCons(xs[0], rest);
      assert xs == [xs[0]] + xs[1..];
      [xs[0]] + rest
  }

  /** `std::set::erase` by key: the ascending sequence of the old elements other than `x`; absent keys change nothing. */
  function Erase(xs: seq<string>, x: string): (r: seq<string>)
    requires StrictlySorted(xs)
    ensures StrictlySorted(r)
    ensures forall y :: y in r <==> y in xs && y != x
  {
    if xs == [] then []
    else
      SortedHeadBelowTail(xs);
      assert xs == [xs[0]] + xs[1..];
      if xs[0] == x then
        LessIrreflexive(x);
        xs[1..]
      else
        var rest := Erase(xs[1..], x);
        SortedCons(xs[0], rest);
        [xs[0]] + rest
  }

  /** There is only one ascending sequence of a given set of names. */
  lemma {:induction false} EnumerationUnique(xs: seq<string>, ys: seq<string>, s: set<string>)
    requires Enumerates(xs, s) && Enumerates(ys, s)
    ensures xs == ys
    decreases |xs|
  {
    if xs != [] {
      assert xs[0] in ys;
      assert ys != [];
      assert ys[0] in s;
      assert xs == [xs[0]] + xs[1..] && ys == [ys[0]] + ys[1..];
      SortedHeadBelowTail(xs);
      SortedHeadBelowTail(ys);
      if xs[0] != ys[0] {
        assert ys[0] in xs[1..] && xs[0] in ys[1..];
        LessAsymmetric(xs[0], ys[0]);
        assert false;
      }
      LessIrreflexive(xs[0]);
      EnumerationUnique(xs[1..], ys[1..], s - {xs[0]});
    } else {
      EnumerationSize(xs, s);
      EnumerationSize(ys, s);
    }
  }

  /** An ascending sequence of a set has one entry per element. */
  lemma {:induction false} EnumerationSize(xs: seq<string>, s: set<string>)
    requires Enumerates(xs, s)
    ensures |xs| == |s|
    decreases |xs|
  {
    if xs == [] {
      assert s == {};
    } else {
      SortedHeadBelowTail(xs);
      LessIrreflexive(xs[0]);
      assert xs == [xs[0]] + xs[1..];
      EnumerationSize(xs[1..], s - {xs[0]});
    }
  }

  lemma {:induction false} EnumerationExists(s: set<string>)
    ensures exists xs :: Enumerates(xs, s)
    decreases s
  {
    if s == {} {
      assert Enumerates([], s);
    } else {
      var x :| x in s;
      EnumerationExists(s - {x});
      var xs :| Enumerates(xs, s - {x});
      assert Enumerates(Insert(xs, x), s);
    }
  }

  /** The elements of `s` in the order a `std::set` holding them iterates. */
  ghost function Ascending(s: set<string>): (xs: seq<string>)
    ensures Enumerates(xs, s)
  {
    EnumerationExists(s);
    var xs :| Enumerates(xs, s);
    xs
  }
}
