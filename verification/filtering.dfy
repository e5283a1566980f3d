/**
 * Order-preserving filtering of sequences, the shape of Rust's
 * `iter().cloned().filter(pred).collect()`, and its fallible variant in which
 * evaluating the predicate may stop the whole pass with an error.
 */
module Filtering {
  import opened Wrappers

  /** The elements of `s` satisfying `p`, in their original order. */
  function Filter<T(==)>(s: seq<T>, p: T -> bool): (r: seq<T>)
    ensures |r| <= |s|
    decreases |s|
  {
    if |s| == 0 then []
    else (if p(s[0]) then [s[0]] else []) + Filter(s[1..], p)
  }

  /**
   * Every output element is an input element satisfying `p`, and every input
   * element satisfying `p` is in the output.
   */
  lemma {:induction false} FilterMembers<T>(s: seq<T>, p: T -> bool)
    ensures forall k :: 0 <= k < |Filter(s, p)| ==> Filter(s, p)[k] in s && p(Filter(s, p)[k])
    ensures forall i :: 0 <= i < |s| && p(s[i]) ==> s[i] in Filter(s, p)
    decreases |s|
  {
    if |s| != 0 {
      FilterMembers(s[1..], p);
      var r := Filter(s, p);
      var rest := Filter(s[1..], p);
      assert r == (if p(s[0]) then [s[0]] else []) + rest;
      forall k | 0 <= k < |r|
        ensures r[k] in s && p(r[k])
      {
        if !(p(s[0]) && k == 0) {
          var k' := if p(s[0]) then k - 1 else k;
          assert r[k] == rest[k'];
          assert rest[k'] in s[1..];
        }
      }
      forall i | 0 <= i < |s| && p(s[i])
        ensures s[i] in r
      {
        if i > 0 {
          assert s[i] == s[1..][i - 1];
        }
      }
    }
  }

  /**
   * `ix` lists strictly increasing positions of `s`, and `r` holds the
   * elements found at those positions: `r` is a subsequence of `s`.
   */
  predicate Embeds<T(==)>(ix: seq<nat>, r: seq<T>, s: seq<T>)
  {
    && |ix| == |r|
    && (forall k :: 0 <= k < |ix| ==> ix[k] < |s| && r[k] == s[ix[k]])
    && (forall k, l :: 0 <= k < l < |ix| ==> ix[k] < ix[l])
  }

  /** Positions `ix` of `s[1..]` become positions `ix[k] + 1` of `s`, none of them 0. */
  lemma ShiftPositions<T>(ix: seq<nat>, r: seq<T>, s: seq<T>) returns (shifted: seq<nat>)
    requires |s| > 0
    requires Embeds(ix, r, s[1..])
    ensures Embeds(shifted, r, s)
    ensures forall k :: 0 <= k < |shifted| ==> shifted[k] >= 1
    ensures forall i :: 1 <= i < |s| ==> (i in shifted <==> i - 1 in ix)
  {
    shifted := seq(|ix|, k requires 0 <= k < |ix| => ix[k] + 1);
    forall i | 1 <= i < |s|
      ensures i in shifted <==> i - 1 in ix
    {
      if i in shifted {
        var k :| 0 <= k < |shifted| && shifted[k] == i;
        assert ix[k] == i - 1;
      }
      if i - 1 in ix {
        var k :| 0 <= k < |ix| && ix[k] == i - 1;
        assert shifted[k] == i;
      }
    }
  }

  /** Putting position 0 in front of positions that are all at least 1 keeps an embedding. */
  lemma PrependFirst<T>(ix: seq<nat>, r: seq<T>, s: seq<T>)
    requires |s| > 0
    requires Embeds(ix, r, s)
    requires forall k :: 0 <= k < |ix| ==> ix[k] >= 1
    ensures Embeds([0] + ix, [s[0]] + r, s)
  {
  }

  /**
   * `Filter` keeps exactly the positions whose element satisfies `p`, in
   * increasing order, and copies each kept element unchanged: its output is
   * a subsequence of its input.
   */
  lemma {:induction false} FilterPositions<T>(s: seq<T>, p: T -> bool) returns (ix: seq<nat>)
    ensures Embeds(ix, Filter(s, p), s)
    ensures forall i :: 0 <= i < |s| ==> (i in ix <==> p(s[i]))
    decreases |s|
  {
    if |s| == 0 {
      ix := [];
    } else {
      var rest := Filter(s[1..], p);
      var tail := FilterPositions(s[1..], p);
      var shifted := ShiftPositions(tail, rest, s);
      if p(s[0]) {
        ix := [0] + shifted;
        PrependFirst(shifted, rest, s);
        assert Filter(s, p) == [s[0]] + rest;
      } else {
        ix := shifted;
        assert Filter(s, p) == rest;
      }
      forall i | 1 <= i < |s|
        ensures i in ix <==> p(s[i])
      {
        assert s[i] == s[1..][i - 1];
      }
    }
  }

  /** Each value occurs in the output as often as in the input if it is kept, and never otherwise. */
  lemma {:induction false} FilterCount<T>(s: seq<T>, p: T -> bool, x: T)
    ensures multiset(Filter(s, p))[x] == if p(x) then multiset(s)[x] else 0
    decreases |s|
  {
    if |s| != 0 {
      FilterCount(s[1..], p, x);
      assert s == [s[0]] + s[1..];
      assert multiset(s) == multiset([s[0]]) + multiset(s[1..]);
    }
  }

  /** When every element satisfies `p`, filtering changes nothing. */
  lemma {:induction false} FilterKeepsAll<T>(s: seq<T>, p: T -> bool)
    requires forall i :: 0 <= i < |s| ==> p(s[i])
    ensures Filter(s, p) == s
    decreases |s|
  {
    if |s| != 0 {
      FilterKeepsAll(s[1..], p);
    }
  }

  /** When no element satisfies `p`, the output is empty. */
  lemma {:induction false} FilterKeepsNone<T>(s: seq<T>, p: T -> bool)
    requires forall i :: 0 <= i < |s| ==> !p(s[i])
    ensures Filter(s, p) == []
    decreases |s|
  {
    if |s| != 0 {
      FilterKeepsNone(s[1..], p);
    }
  }

  /** Filtering a second time with the same predicate returns the first output unchanged. */
  lemma FilterIdempotent<T>(s: seq<T>, p: T -> bool)
    ensures Filter(Filter(s, p), p) == Filter(s, p)
  {
    FilterMembers(s, p);
    FilterKeepsAll(Filter(s, p), p);
  }

  /** Two predicates that agree on every element of `s` filter it alike. */
  lemma {:induction false} FilterAgree<T>(s: seq<T>, p: T -> bool, q: T -> bool)
    requires forall i :: 0 <= i < |s| ==> p(s[i]) == q(s[i])
    ensures Filter(s, p) == Filter(s, q)
    decreases |s|
  {
    if |s| != 0 {
      FilterAgree(s[1..], p, q);
    }
  }

  /** The elements that `test` accepts without error. */
  function Accepts<T, E>(test: T -> Result<bool, E>): T -> bool
  {
    x => test(x).Ok? && test(x).value
  }

  /**
   * Filtering in which evaluating the predicate may fail: the elements are
   * tested in order and the first failure ends the whole pass with that
   * error, so no partial output is ever produced.
   */
  function TryFilter<T(==), E>(s: seq<T>, test: T -> Result<bool, E>): (r: Result<seq<T>, E>)
    ensures r.Ok? <==> forall i :: 0 <= i < |s| ==> test(s[i]).Ok?
    ensures r.Ok? ==> r.value == Filter(s, Accepts(test))
    ensures r.Err? ==>
      exists i :: 0 <= i < |s| && test(s[i]) == Err(r.error)
                  && forall j :: 0 <= j < i ==> test(s[j]).Ok?
    decreases |s|
  {
    if |s| == 0 then Ok([])
    else
      match test(s[0])
      case Err(e) => Err(e)
      case Ok(keep) =>
        match TryFilter(s[1..], test)
        case Err(e) => Err(e)
        case Ok(rest) => Ok((if keep then [s[0]] else []) + rest)
  }

  /** A successful pass accepts its own output again, unchanged. */
  lemma TryFilterIdempotent<T, E>(s: seq<T>, test: T -> Result<bool, E>)
    requires TryFilter(s, test).Ok?
    ensures TryFilter(TryFilter(s, test).value, test) == TryFilter(s, test)
  {
    FilterMembers(s, Accepts(test));
    FilterKeepsAll(TryFilter(s, test).value, Accepts(test));
  }
}
