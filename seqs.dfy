/** Array.prototype.filter, shared by the server cart, the client cart and the product list. */
module Seqs {

  /** The elements of `s` for which `keep` holds, in their original order. */
  function Filter<T>(s: seq<T>, keep: T -> bool): (r: seq<T>)
    ensures |r| <= |s|
    decreases |s|
  {
    if s == [] then [] else (if keep(s[0]) then [s[0]] else []) + Filter(s[1..], keep)
  }

  /** Every kept element comes from `s` and satisfies `keep`; every element of `s` satisfying it is kept. */
  lemma {:induction false} FilterMembers<T>(s: seq<T>, keep: T -> bool)
    ensures forall i :: 0 <= i < |Filter(s, keep)| ==> Filter(s, keep)[i] in s && keep(Filter(s, keep)[i])
    ensures forall i :: 0 <= i < |s| && keep(s[i]) ==> s[i] in Filter(s, keep)
    decreases |s|
  {
    if s != [] {
      FilterMembers(s[1..], keep);
      var h := if keep(s[0]) then [s[0]] else [];
      var t := Filter(s[1..], keep);
      assert Filter(s, keep) == h + t;
      forall i | 0 <= i < |h + t| ensures (h + t)[i] in s && keep((h + t)[i]) {
        if i >= |h| {
          assert (h + t)[i] == t[i - |h|];
          assert t[i - |h|] in s[1..];
        }
      }
      forall i | 0 <= i < |s| && keep(s[i]) ensures s[i] in h + t {
        if i > 0 {
          assert s[i] == s[1..][i - 1];
        }
      }
    }
  }

  /** Filtering distributes over concatenation: the kept elements keep their relative order. */
  lemma {:induction false} FilterAppend<T>(a: seq<T>, b: seq<T>, keep: T -> bool)
    ensures Filter(a + b, keep) == Filter(a, keep) + Filter(b, keep)
    decreases |a|
  {
    if a == [] {
      assert a + b == b;
    } else {
      var ab := a + b;
      assert ab != [] && ab[0] == a[0] && ab[1..] == a[1..] + b;
      FilterAppend(a[1..], b, keep);
      var h := if keep(a[0]) then [a[0]] else [];
      var fa, fb := Filter(a[1..], keep), Filter(b, keep);
      assert Filter(ab, keep) == h + (fa + fb);
      assert Filter(a, keep) == h + fa;
      assert h + (fa + fb) == (h + fa) + fb;
    }
  }

  /** Filtering around one position: what comes before it, the element itself, what comes after. */
  lemma FilterAround<T>(s: seq<T>, i: nat, keep: T -> bool)
    requires i < |s|
    ensures Filter(s, keep)
         == Filter(s[..i], keep) + (if keep(s[i]) then [s[i]] else []) + Filter(s[i + 1..], keep)
  {
    var a, rest := s[..i], s[i..];
    assert s == a + rest;
    assert rest[0] == s[i] && rest[1..] == s[i + 1..];
    FilterAppendStep(a, rest, keep);
  }

  /** `Filter` over `a + rest`, with the first element of `rest` taken apart. */
  lemma FilterAppendStep<T>(a: seq<T>, rest: seq<T>, keep: T -> bool)
    requires rest != []
    ensures Filter(a + rest, keep)
         == Filter(a, keep) + (if keep(rest[0]) then [rest[0]] else []) + Filter(rest[1..], keep)
  {
    FilterAppend(a, rest, keep);
    FilterStep(rest, keep);
    var left, mid, right := Filter(a, keep), (if keep(rest[0]) then [rest[0]] else []), Filter(rest[1..], keep);
    assert left + (mid + right) == left + mid + right;
  }

  /** One step of `Filter` on a non-empty sequence. */
  lemma FilterStep<T>(s: seq<T>, keep: T -> bool)
    requires s != []
    ensures Filter(s, keep) == (if keep(s[0]) then [s[0]] else []) + Filter(s[1..], keep)
  {
  }

  /** Filtering with one position cut out. */
  lemma FilterWithout<T>(s: seq<T>, i: nat, keep: T -> bool)
    requires i < |s|
    ensures Filter(s[..i] + s[i + 1..], keep) == Filter(s[..i], keep) + Filter(s[i + 1..], keep)
  {
    FilterAppend(s[..i], s[i + 1..], keep);
  }

  /** Cutting out an element the filter drops does not change the filter. */
  lemma FilterSkip<T>(s: seq<T>, i: nat, keep: T -> bool)
    requires i < |s| && !keep(s[i])
    ensures Filter(s[..i] + s[i + 1..], keep) == Filter(s, keep)
  {
    FilterAround(s, i, keep);
    FilterWithout(s, i, keep);
    DropEmpty(Filter(s, keep), Filter(s[..i] + s[i + 1..], keep), Filter(s[..i], keep),
              [], Filter(s[i + 1..], keep));
  }

  /** Putting nothing between two sequences is concatenating them. */
  lemma DropEmpty<T>(whole: seq<T>, cut: seq<T>, left: seq<T>, mid: seq<T>, right: seq<T>)
    requires mid == [] && whole == left + mid + right && cut == left + right
    ensures cut == whole
  {
    assert left + mid == left;
  }

  /** A filter that keeps no element gives the empty sequence. */
  lemma {:induction false} FilterKeepsNone<T>(s: seq<T>, keep: T -> bool)
    requires forall i :: 0 <= i < |s| ==> !keep(s[i])
    ensures Filter(s, keep) == []
  {
    if s != [] {
      FilterKeepsNone(s[1..], keep);
    }
  }

  /** A filter that keeps every element is the identity. */
  lemma {:induction false} FilterKeepsAll<T>(s: seq<T>, keep: T -> bool)
    requires forall i :: 0 <= i < |s| ==> keep(s[i])
    ensures Filter(s, keep) == s
    decreases |s|
  {
    if s != [] {
      FilterKeepsAll(s[1..], keep);
    }
  }

  /** Each value is kept exactly as often as it occurs, or dropped entirely. */
  lemma {:induction false} FilterCount<T>(s: seq<T>, keep: T -> bool, x: T)
    ensures multiset(Filter(s, keep))[x] == if keep(x) then multiset(s)[x] else 0
    decreases |s|
  {
    if s != [] {
      FilterCount(s[1..], keep, x);
      assert s == [s[0]] + s[1..];
    }
  }
}
