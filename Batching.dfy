/** Splitting a list into the consecutive slices `texts[i:i + batch_size]`, `i` running over
    `range(0, len(texts), batch_size)`, and collecting the per-slice results in order, as both
    embedding clients do. */
module Batching {
  import opened Common

  /** The slices, in order: all of `size` items but the last, which holds what is left. */
  function Batches<T>(s: seq<T>, size: nat): seq<seq<T>>
    requires size > 0
    decreases |s|
  {
    if s == [] then [] else [s[..Min(size, |s|)]] + Batches(s[Min(size, |s|)..], size)
  }

  /** Concatenating the slices gives back the input. */
  lemma {:induction false} BatchesFlatten<T>(s: seq<T>, size: nat)
    requires size > 0
    ensures Flatten(Batches(s, size)) == s
    decreases |s|
  {
    if s != [] {
      var n := Min(size, |s|);
      BatchesFlatten(s[n..], size);
      FlattenAppend([s[..n]], Batches(s[n..], size));
      FlattenSingle(s[..n]);
      assert s[..n] + s[n..] == s;
    }
  }

  lemma DivIsUnique(a: int, d: int, q: int)
    requires d > 0 && q * d <= a < (q + 1) * d
    ensures a / d == q
  {
    var r := a % d;
    var k := a / d;
    assert a == k * d + r && 0 <= r < d;
    if k < q {
      MulMonotone(k + 1, q, d);
      assert false;
    } else if k > q {
      MulMonotone(q + 1, k, d);
      assert false;
    }
  }

  lemma MulMonotone(x: int, y: int, d: int)
    requires x <= y && d >= 0
    ensures x * d <= y * d
  {
    assert y * d - x * d == (y - x) * d;
  }

  lemma DivAddOne(a: int, d: int)
    requires d > 0
    ensures (a + d) / d == a / d + 1
  {
    DivIsUnique(a + d, d, a / d + 1);
  }

  /** There are `ceil(len(s) / size)` slices. */
  lemma {:induction false} BatchesCount<T>(s: seq<T>, size: nat)
    requires size > 0
    ensures |Batches(s, size)| == (|s| + size - 1) / size
    decreases |s|
  {
    if s == [] {
      DivIsUnique(size - 1, size, 0);
    } else if |s| <= size {
      assert s[Min(size, |s|)..] == [];
      DivIsUnique(|s| + size - 1, size, 1);
    } else {
      BatchesCount(s[size..], size);
      assert |s[size..]| + size - 1 == |s| - 1;
      DivAddOne(|s| - 1, size);
    }
  }

  /** Every slice but the last holds `size` items; the last holds between 1 and `size`. */
  lemma {:induction false} BatchesSizes<T>(s: seq<T>, size: nat)
    requires size > 0
    ensures forall i :: 0 <= i < |Batches(s, size)| - 1 ==> |Batches(s, size)[i]| == size
    ensures Batches(s, size) != [] ==> 0 < |Batches(s, size)[|Batches(s, size)| - 1]| <= size
    decreases |s|
  {
    if s != [] {
      var n := Min(size, |s|);
      var bs := Batches(s, size);
      var rest := Batches(s[n..], size);
      BatchesSizes(s[n..], size);
      assert bs == [s[..n]] + rest;
      if rest == [] {
        assert |bs| == 1;
      } else {
        assert n == size;
        assert forall i :: 1 <= i < |bs| ==> bs[i] == rest[i - 1];
      }
    }
  }

  /** The per-slice results, in slice order, when none failed. */
  function Outputs<T, U>(batches: seq<seq<T>>, call: seq<T> -> Option<seq<U>>): seq<seq<U>>
    requires forall i :: 0 <= i < |batches| ==> call(batches[i]).Some?
    decreases |batches|
  {
    if batches == [] then [] else [call(batches[0]).value] + Outputs(batches[1..], call)
  }

  /** The loop `for i in range(0, len(s), size): all.extend(call(s[i:i + size]))`, where a call
      that raises (None) ends everything. */
  function Collect<T, U>(s: seq<T>, size: nat, call: seq<T> -> Option<seq<U>>): Option<seq<U>>
    requires size > 0
    decreases |s|
  {
    if s == [] then Some([])
    else
      var n := Min(size, |s|);
      match call(s[..n])
      case None => None
      case Some(head) => Extended(head, Collect(s[n..], size, call))
  }

  /** The items collected so far followed by the outcome of the remaining slices. */
  function Extended<U>(done: seq<U>, rest: Option<seq<U>>): (r: Option<seq<U>>)
    ensures r.Some? <==> rest.Some?
    ensures r.Some? ==> r.value == done + rest.value
  {
    match rest
    case None => None
    case Some(more) => Some(done + more)
  }

  lemma ExtendedNothing<U>(rest: Option<seq<U>>)
    ensures Extended([], rest) == rest
  {
    if rest.Some? {
      assert [] + rest.value == rest.value;
    }
  }

  lemma ExtendedTwice<U>(done: seq<U>, more: seq<U>, rest: Option<seq<U>>)
    ensures Extended(done, Extended(more, rest)) == Extended(done + more, rest)
  {
    if rest.Some? {
      assert done + (more + rest.value) == (done + more) + rest.value;
    }
  }

  /** The collected list is the concatenation, in slice order, of the results of all slices, and it
      exists exactly when no slice's call raised. */
  lemma {:induction false} CollectIsConcatenation<T, U>(s: seq<T>, size: nat, call: seq<T> -> Option<seq<U>>)
    requires size > 0
    ensures Collect(s, size, call).Some? <==>
      forall i :: 0 <= i < |Batches(s, size)| ==> call(Batches(s, size)[i]).Some?
    ensures Collect(s, size, call).Some? ==>
      Collect(s, size, call).value == Flatten(Outputs(Batches(s, size), call))
    decreases |s|
  {
    if s != [] {
      var n := Min(size, |s|);
      var bs := Batches(s, size);
      var rest := Batches(s[n..], size);
      assert bs == [s[..n]] + rest;
      assert bs[0] == s[..n];
      assert forall i :: 1 <= i < |bs| ==> bs[i] == rest[i - 1];
      CollectIsConcatenation(s[n..], size, call);
      if Collect(s, size, call).Some? {
        assert call(s[..n]).Some? && Collect(s[n..], size, call).Some?;
        assert forall i :: 0 <= i < |bs| ==> call(bs[i]).Some?;
        assert bs[1..] == rest;
        FlattenAppend([call(s[..n]).value], Outputs(rest, call));
        FlattenSingle(call(s[..n]).value);
      } else if call(s[..n]).Some? {
        assert Collect(s[n..], size, call).None?;
        var j :| 0 <= j < |rest| && call(rest[j]).None?;
        assert bs[j + 1] == rest[j];
      }
    }
  }

  /** One step of the loop: starting at `i`, the slice is `s[i:i + size]` and the loop goes on
      with what follows it. */
  lemma CollectStep<T, U>(s: seq<T>, i: nat, size: nat, call: seq<T> -> Option<seq<U>>)
    requires size > 0 && i < |s|
    ensures s[i..][..Min(size, |s| - i)] == s[i..Min(i + size, |s|)]
    ensures s[i..][Min(size, |s| - i)..] == s[Min(i + size, |s|)..]
    ensures Collect(s[i..], size, call) ==
      match call(s[i..Min(i + size, |s|)])
      case None => None
      case Some(head) => Extended(head, Collect(s[Min(i + size, |s|)..], size, call))
  {
    assert s[i..][..Min(size, |s| - i)] == s[i..Min(i + size, |s|)];
    assert s[i..][Min(size, |s| - i)..] == s[Min(i + size, |s|)..];
  }

  /** The loop itself: `for i in range(0, len(s), size): all.extend(call(s[i:i + size]))`, where
      extending by a result that is not a list raises (None). */
  method CollectBatches<T, U>(s: seq<T>, size: nat, call: seq<T> -> Option<seq<U>>) returns (r: Option<seq<U>>)
    requires size > 0
    ensures r == Collect(s, size, call)
  {
    var all: seq<U> := [];
    var i := 0;
    ExtendedNothing(Collect(s, size, call));
    // `i` runs over the slice starts, as in `range(0, len(s), size)`
    while i < |s|
      invariant 0 <= i <= |s|
      invariant Collect(s, size, call) == Extended(all, Collect(s[i..], size, call))
    {
      var batch := s[i..Min(i + size, |s|)];
      CollectStep(s, i, size, call);
      var items := call(batch);
      if items.None? {
        return None;
      }
      ExtendedTwice(all, items.value, Collect(s[Min(i + size, |s|)..], size, call));
      all := all + items.value;
      i := i + |batch|;
    }
    assert s[i..] == [];
    assert all + [] == all;
    r := Some(all);
  }
}
