/** The training driver's discrete logic: the length comparators that order
    sentence ids, the greedy length-budgeted minibatch construction (with
    targets that are sentences or labels, and the monolingual form), the
    model-type and required-option checks, and the trainer-name dispatch.
    Training itself (passes over the data, learning rates, updates) is not
    modelled. */
module LamtramTrain {
  import opened Errors
  import opened LinearEncoding
  import opened Seqs
  import opened Text
  import StringUtil

  // ---------------------------------------------------------------------
  // Ordering sentence ids by length.

  /** The lengths an id is ordered by: the source length, then the target
      length (a constant for labels and for monolingual data). */
  datatype LenKey = LenKey(major: nat, minor: nat)

  /** Strictly longer: the comparator puts k1 before k2. */
  predicate Precedes(k1: LenKey, k2: LenKey)
  {
    k2.major < k1.major || (k2.major == k1.major && k2.minor < k1.minor)
  }

  /** `DoubleLength<Sentence>`: longer source first, ties by longer target. */
  function DoubleLengthSentences(src: seq<Sentence>, trg: seq<Sentence>, i1: nat, i2: nat): (b: bool)
    requires i1 < |src| && i2 < |src| && i1 < |trg| && i2 < |trg|
    ensures b == Precedes(LenKey(|src[i1]|, |trg[i1]|), LenKey(|src[i2]|, |trg[i2]|))
  {
    if |src[i2]| != |src[i1]| then |src[i2]| < |src[i1]| else |trg[i2]| < |trg[i1]|
  }

  /** `DoubleLength<int>`: longer source first; labels do not break ties. */
  function DoubleLengthLabels(src: seq<Sentence>, i1: nat, i2: nat): (b: bool)
    requires i1 < |src| && i2 < |src|
    ensures b == Precedes(LenKey(|src[i1]|, 1), LenKey(|src[i2]|, 1))
  {
    |src[i2]| < |src[i1]|
  }

  /** `SingleLength`: longer sentence first. */
  function SingleLength(trg: seq<Sentence>, i1: nat, i2: nat): (b: bool)
    requires i1 < |trg| && i2 < |trg|
    ensures b == Precedes(LenKey(|trg[i1]|, 0), LenKey(|trg[i2]|, 0))
  {
    |trg[i2]| < |trg[i1]|
  }

  /** The comparator is a strict weak order, as `std::sort` needs:
      irreflexive, transitive, and its incomparability is transitive. */
  lemma PrecedesStrictWeakOrder(a: LenKey, b: LenKey, c: LenKey)
    ensures !Precedes(a, a)
    ensures Precedes(a, b) && Precedes(b, c) ==> Precedes(a, c)
    ensures !Precedes(a, b) && !Precedes(b, a) && !Precedes(b, c) && !Precedes(c, b) ==>
              !Precedes(a, c) && !Precedes(c, a)
  {
  }

  predicate InRange(keys: seq<LenKey>, ids: seq<nat>)
  {
    forall k :: 0 <= k < |ids| ==> ids[k] < |keys|
  }

  /** No id is put after one it precedes. */
  predicate SortedBy(keys: seq<LenKey>, ids: seq<nat>)
    requires InRange(keys, ids)
  {
    SortedUpTo(keys, ids, |ids|)
  }

  /** The first i ids are in comparator order. */
  predicate SortedUpTo(keys: seq<LenKey>, ids: seq<nat>, i: nat)
    requires InRange(keys, ids) && i <= |ids|
  {
    forall p, q :: 0 <= p < q < i ==> !Precedes(keys[ids[q]], keys[ids[p]])
  }

  /** Insertion of the id at i under way, now at j: the first i + 1 ids are in
      order except around j, and nothing after j precedes the id at j. */
  predicate Inserting(keys: seq<LenKey>, ids: seq<nat>, i: nat, j: nat)
    requires InRange(keys, ids) && j <= i < |ids|
  {
    && (forall p, q :: 0 <= p < q <= i && p != j && q != j ==> !Precedes(keys[ids[q]], keys[ids[p]]))
    && (forall q :: j < q <= i ==> !Precedes(keys[ids[q]], keys[ids[j]]))
  }

  lemma InsertStart(keys: seq<LenKey>, ids: seq<nat>, i: nat)
    requires InRange(keys, ids) && i < |ids| && SortedUpTo(keys, ids, i)
    ensures Inserting(keys, ids, i, i)
  {
  }

  lemma InsertSwap(keys: seq<LenKey>, ids: seq<nat>, i: nat, j: nat)
    requires InRange(keys, ids) && 0 < j <= i < |ids| && Inserting(keys, ids, i, j)
    requires Precedes(keys[ids[j]], keys[ids[j - 1]])
    ensures InRange(keys, ids[j - 1 := ids[j]][j := ids[j - 1]])
    ensures Inserting(keys, ids[j - 1 := ids[j]][j := ids[j - 1]], i, j - 1)
  {
    var t := ids[j - 1 := ids[j]][j := ids[j - 1]];
    forall p, q | 0 <= p < q <= i && p != j - 1 && q != j - 1
      ensures !Precedes(keys[t[q]], keys[t[p]])
    {
      if q == j {
        assert t[q] == ids[j - 1];
        if p < j - 1 {
          assert !Precedes(keys[ids[j - 1]], keys[ids[p]]);
        }
      } else if p == j {
        assert t[p] == ids[j - 1];
        assert !Precedes(keys[ids[q]], keys[ids[j]]);
      }
    }
  }

  lemma InsertDone(keys: seq<LenKey>, ids: seq<nat>, i: nat, j: nat)
    requires InRange(keys, ids) && j <= i < |ids| && Inserting(keys, ids, i, j)
    requires j == 0 || !Precedes(keys[ids[j]], keys[ids[j - 1]])
    ensures SortedUpTo(keys, ids, i + 1)
  {
    forall p, q | 0 <= p < q <= i
      ensures !Precedes(keys[ids[q]], keys[ids[p]])
    {
      if q == j && p < j - 1 {
        assert !Precedes(keys[ids[j - 1]], keys[ids[p]]);
      }
    }
  }

  /** `std::iota`: 0, 1, ..., n - 1. */
  function Iota(n: nat): (r: seq<nat>)
    ensures |r| == n && forall k :: 0 <= k < n ==> r[k] == k
  {
    seq(n, k requires 0 <= k < n => k)
  }

  /** The sort of `train_ids`: a permutation of the ids in comparator order.
      Which of two equal-length ids comes first is left open, as `std::sort`
      leaves it. */
  method SortIds(keys: seq<LenKey>) returns (ids: seq<nat>)
    ensures |ids| == |keys| && multiset(ids) == multiset(Iota(|keys|))
    ensures InRange(keys, ids) && SortedBy(keys, ids)
  {
    var a := new nat[|keys|](k => k);
    assert a[..] == Iota(|keys|);
    for i := 0 to a.Length
      invariant InRange(keys, a[..])
      invariant multiset(a[..]) == multiset(Iota(|keys|))
      invariant SortedUpTo(keys, a[..], i)
    {
      Insert(keys, a, i);
    }
    ids := a[..];
  }

  /** Moves the id at i left past every id it precedes. */
  method Insert(keys: seq<LenKey>, a: array<nat>, i: nat)
    requires i < a.Length && InRange(keys, a[..]) && SortedUpTo(keys, a[..], i)
    modifies a
    ensures InRange(keys, a[..]) && SortedUpTo(keys, a[..], i + 1)
    ensures multiset(a[..]) == multiset(old(a[..]))
  {
    InsertStart(keys, a[..], i);
    var j := i;
    while j > 0 && Precedes(keys[a[j]], keys[a[j - 1]])
      invariant 0 <= j <= i
      invariant InRange(keys, a[..])
      invariant multiset(a[..]) == multiset(old(a[..]))
      invariant Inserting(keys, a[..], i, j)
    {
      InsertSwap(keys, a[..], i, j);
      ghost var before := a[..];
      a[j - 1], a[j] := a[j], a[j - 1];
      assert a[..] == before[j - 1 := before[j]][j := before[j - 1]];
      j := j - 1;
    }
    InsertDone(keys, a[..], i, j);
  }

  // ---------------------------------------------------------------------
  // Minibatches.

  /** A C++ `int`. */
  type CInt = x: int | -0x8000_0000 <= x < 0x8000_0000

  /** The `int` budget as the `size_t` it is compared as: a negative budget
      wraps around to a huge one. */
  function SizeT(x: CInt): nat
  {
    if x < 0 then x + 0x1_0000_0000_0000_0000 else x
  }

  /** `CalcSize`: the source length plus the target's size, which is its
      length for a sentence and 1 for a label. */
  function CalcSize<T>(s: Sentence, t: T, trgSize: T -> nat): nat
  {
    |s| + trgSize(t)
  }

  function SentSize(t: Sentence): nat { |t| }

  function LabelSize(l: int): nat { 1 }

  /** The items at the given ids, in the order of the ids. */
  function Select<T>(xs: seq<T>, ids: seq<nat>): (r: seq<T>)
    requires forall k :: 0 <= k < |ids| ==> ids[k] < |xs|
    ensures |r| == |ids|
  {
    seq(|ids|, k requires 0 <= k < |ids| => xs[ids[k]])
  }

  /** The bilingual sort keys: source length, then target size. */
  function BiKeys<T>(src: seq<Sentence>, trg: seq<T>, trgSize: T -> nat): (keys: seq<LenKey>)
    requires |trg| <= |src|
    ensures |keys| == |trg|
  {
    seq(|trg|, i requires 0 <= i < |trg| => LenKey(|src[i]|, trgSize(trg[i])))
  }

  /** The `CalcSize`s of the pairs at the given ids. */
  function BiSizes<T>(src: seq<Sentence>, trg: seq<T>, trgSize: T -> nat, ids: seq<nat>): (r: seq<nat>)
    requires forall k :: 0 <= k < |ids| ==> ids[k] < |src| && ids[k] < |trg|
    ensures |r| == |ids|
  {
    seq(|ids|, k requires 0 <= k < |ids| => CalcSize(src[ids[k]], trg[ids[k]], trgSize))
  }

  /** `(count) * size > limit`: count items of the given size do not fit. */
  predicate Overflows(count: nat, size: nat, limit: nat)
  {
    count * size > limit
  }

  /** The bilingual greedy pass over items, in sorted order, whose sizes are
      sizes.  next is the batch being filled and maxLen the largest size seen
      so far (it is never reset).  A batch is closed as soon as one more item
      of size maxLen would take it over the budget limit.  reset says whether
      closing a batch also sets the budget to 0, as the code does. */
  function GreedyBatches<T>(items: seq<T>, sizes: seq<nat>, limit: nat, maxLen: nat, next: seq<T>, reset: bool): seq<seq<T>>
    requires |items| == |sizes|
    decreases |items|
  {
    if items == [] then (if next == [] then [] else [next])
    else
      var m := if maxLen < sizes[0] then sizes[0] else maxLen;
      var nx := next + [items[0]];
      if Overflows(|nx| + 1, m, limit) then
        [nx] + GreedyBatches(items[1..], sizes[1..], if reset then 0 else limit, m, [], reset)
      else
        GreedyBatches(items[1..], sizes[1..], limit, m, nx, reset)
  }

  /** The monolingual greedy pass: the same, except that a batch is measured
      by the size of its first item. */
  function FirstBatches<T>(items: seq<T>, sizes: seq<nat>, limit: nat, first: nat, next: seq<T>): seq<seq<T>>
    requires |items| == |sizes|
    decreases |items|
  {
    if items == [] then (if next == [] then [] else [next])
    else
      var f := if next == [] then sizes[0] else first;
      var nx := next + [items[0]];
      if Overflows(|nx| + 1, f, limit) then
        [nx] + FirstBatches(items[1..], sizes[1..], limit, f, [])
      else
        FirstBatches(items[1..], sizes[1..], limit, f, nx)
  }

  /** One step of the bilingual pass, as the loop takes it: from the state
      before item i to the state after it. */
  lemma GreedyStep<T>(items: seq<T>, sizes: seq<nat>, i: nat, limit: nat, maxLen: nat, next: seq<T>,
                      batches: seq<seq<T>>, whole: seq<seq<T>>,
                      limit': nat, maxLen': nat, next': seq<T>, batches': seq<seq<T>>)
    requires |items| == |sizes| && i < |items|
    requires batches + GreedyBatches(items[i..], sizes[i..], limit, maxLen, next, true) == whole
    requires maxLen' == if maxLen < sizes[i] then sizes[i] else maxLen
    requires Overflows(|next| + 2, maxLen', limit) ==> batches' == batches + [next + [items[i]]] && next' == [] && limit' == 0
    requires !Overflows(|next| + 2, maxLen', limit) ==> batches' == batches && next' == next + [items[i]] && limit' == limit
    ensures batches' + GreedyBatches(items[i + 1..], sizes[i + 1..], limit', maxLen', next', true) == whole
  {
    assert items[i..][1..] == items[i + 1..];
    assert sizes[i..][1..] == sizes[i + 1..];
    var nx := next + [items[i]];
    assert |nx| + 1 == |next| + 2;
    if Overflows(|next| + 2, maxLen', limit) {
      assert GreedyBatches(items[i..], sizes[i..], limit, maxLen, next, true)
          == [nx] + GreedyBatches(items[i + 1..], sizes[i + 1..], 0, maxLen', [], true);
    } else {
      assert GreedyBatches(items[i..], sizes[i..], limit, maxLen, next, true)
          == GreedyBatches(items[i + 1..], sizes[i + 1..], limit, maxLen', nx, true);
    }
  }

  /** One step of the monolingual pass, as the loop takes it. */
  lemma FirstStep<T>(items: seq<T>, sizes: seq<nat>, i: nat, limit: nat, first: nat, next: seq<T>,
                     batches: seq<seq<T>>, whole: seq<seq<T>>,
                     first': nat, next': seq<T>, batches': seq<seq<T>>)
    requires |items| == |sizes| && i < |items|
    requires batches + FirstBatches(items[i..], sizes[i..], limit, first, next) == whole
    requires first' == if next == [] then sizes[i] else first
    requires Overflows(|next| + 2, first', limit) ==> batches' == batches + [next + [items[i]]] && next' == []
    requires !Overflows(|next| + 2, first', limit) ==> batches' == batches && next' == next + [items[i]]
    ensures batches' + FirstBatches(items[i + 1..], sizes[i + 1..], limit, first', next') == whole
  {
    assert items[i..][1..] == items[i + 1..];
    assert sizes[i..][1..] == sizes[i + 1..];
    var nx := next + [items[i]];
    assert |nx| + 1 == |next| + 2;
    if Overflows(|next| + 2, first', limit) {
      assert FirstBatches(items[i..], sizes[i..], limit, first, next)
          == [nx] + FirstBatches(items[i + 1..], sizes[i + 1..], limit, first', []);
    } else {
      assert FirstBatches(items[i..], sizes[i..], limit, first, next)
          == FirstBatches(items[i + 1..], sizes[i + 1..], limit, first', nx);
    }
  }

  /** The batches, laid end to end, are the pending batch followed by the
      items: every item lands in exactly one batch, in order. */
  lemma {:induction false} GreedyPartition<T>(items: seq<T>, sizes: seq<nat>, limit: nat, maxLen: nat, next: seq<T>, reset: bool)
    requires |items| == |sizes|
    ensures Flatten(GreedyBatches(items, sizes, limit, maxLen, next, reset)) == next + items
    decreases |items|
  {
    if items == [] {
      if next != [] {
        FlattenCons(next, []);
      }
    } else {
      var m := if maxLen < sizes[0] then sizes[0] else maxLen;
      var nx := next + [items[0]];
      assert next + items == nx + items[1..];
      if Overflows(|nx| + 1, m, limit) {
        GreedyPartition(items[1..], sizes[1..], if reset then 0 else limit, m, [], reset);
        FlattenCons(nx, GreedyBatches(items[1..], sizes[1..], if reset then 0 else limit, m, [], reset));
      } else {
        GreedyPartition(items[1..], sizes[1..], limit, m, nx, reset);
      }
    }
  }

  lemma {:induction false} FirstPartition<T>(items: seq<T>, sizes: seq<nat>, limit: nat, first: nat, next: seq<T>)
    requires |items| == |sizes|
    ensures Flatten(FirstBatches(items, sizes, limit, first, next)) == next + items
    decreases |items|
  {
    if items == [] {
      if next != [] {
        FlattenCons(next, []);
      }
    } else {
      var f := if next == [] then sizes[0] else first;
      var nx := next + [items[0]];
      assert next + items == nx + items[1..];
      if Overflows(|nx| + 1, f, limit) {
        FirstPartition(items[1..], sizes[1..], limit, f, []);
        FlattenCons(nx, FirstBatches(items[1..], sizes[1..], limit, f, []));
      } else {
        FirstPartition(items[1..], sizes[1..], limit, f, nx);
      }
    }
  }

  /** No batch is empty. */
  lemma {:induction false} GreedyNonEmpty<T>(items: seq<T>, sizes: seq<nat>, limit: nat, maxLen: nat, next: seq<T>, reset: bool)
    requires |items| == |sizes|
    ensures forall k :: 0 <= k < |GreedyBatches(items, sizes, limit, maxLen, next, reset)| ==>
              GreedyBatches(items, sizes, limit, maxLen, next, reset)[k] != []
    decreases |items|
  {
    if items != [] {
      var m := if maxLen < sizes[0] then sizes[0] else maxLen;
      var nx := next + [items[0]];
      if Overflows(|nx| + 1, m, limit) {
        GreedyNonEmpty(items[1..], sizes[1..], if reset then 0 else limit, m, [], reset);
      } else {
        GreedyNonEmpty(items[1..], sizes[1..], limit, m, nx, reset);
      }
    }
  }

  lemma {:induction false} FirstNonEmpty<T>(items: seq<T>, sizes: seq<nat>, limit: nat, first: nat, next: seq<T>)
    requires |items| == |sizes|
    ensures forall k :: 0 <= k < |FirstBatches(items, sizes, limit, first, next)| ==>
              FirstBatches(items, sizes, limit, first, next)[k] != []
    decreases |items|
  {
    if items != [] {
      var f := if next == [] then sizes[0] else first;
      var nx := next + [items[0]];
      if Overflows(|nx| + 1, f, limit) {
        FirstNonEmpty(items[1..], sizes[1..], limit, f, []);
      } else {
        FirstNonEmpty(items[1..], sizes[1..], limit, f, nx);
      }
    }
  }

  /** Same-length batches of the same sizes: the group boundaries depend on
      the sizes only, so source, target and cache batches line up. */
  predicate SameShape<A, B>(xs: seq<seq<A>>, ys: seq<seq<B>>)
  {
    |xs| == |ys| && forall k :: 0 <= k < |xs| ==> |xs[k]| == |ys[k]|
  }

  lemma {:induction false} GreedyAligned<A, B>(xs: seq<A>, ys: seq<B>, sizes: seq<nat>, limit: nat, maxLen: nat,
                                               nx: seq<A>, ny: seq<B>, reset: bool)
    requires |xs| == |sizes| && |ys| == |sizes| && |nx| == |ny|
    ensures SameShape(GreedyBatches(xs, sizes, limit, maxLen, nx, reset), GreedyBatches(ys, sizes, limit, maxLen, ny, reset))
    decreases |sizes|
  {
    if sizes != [] {
      var m := if maxLen < sizes[0] then sizes[0] else maxLen;
      if Overflows(|nx| + 2, m, limit) {
        GreedyAligned(xs[1..], ys[1..], sizes[1..], if reset then 0 else limit, m, [], [], reset);
      } else {
        GreedyAligned(xs[1..], ys[1..], sizes[1..], limit, m, nx + [xs[0]], ny + [ys[0]], reset);
      }
    }
  }

  lemma {:induction false} FirstAligned<A, B>(xs: seq<A>, ys: seq<B>, sizes: seq<nat>, limit: nat, first: nat,
                                              nx: seq<A>, ny: seq<B>)
    requires |xs| == |sizes| && |ys| == |sizes| && |nx| == |ny|
    ensures SameShape(FirstBatches(xs, sizes, limit, first, nx), FirstBatches(ys, sizes, limit, first, ny))
    decreases |sizes|
  {
    if sizes != [] {
      var f := if nx == [] then sizes[0] else first;
      assert (nx == []) == (ny == []);
      if Overflows(|nx| + 2, f, limit) {
        FirstAligned(xs[1..], ys[1..], sizes[1..], limit, f, [], []);
      } else {
        FirstAligned(xs[1..], ys[1..], sizes[1..], limit, f, nx + [xs[0]], ny + [ys[0]]);
      }
    }
  }

  /** No element of xs exceeds m. */
  predicate AtMost(xs: seq<nat>, m: nat)
  {
    forall j :: 0 <= j < |xs| ==> xs[j] <= m
  }

  lemma AtMostSnoc(xs: seq<nat>, x: nat, m: nat, m': nat)
    requires AtMost(xs, m) && m <= m' && x <= m'
    ensures AtMost(xs + [x], m')
  {
    forall j | 0 <= j < |xs + [x]| ensures (xs + [x])[j] <= m' {
      if j < |xs| {
        assert (xs + [x])[j] == xs[j];
      }
    }
  }

  lemma MulLe(a: nat, x: nat, y: nat)
    requires x <= y
    ensures a * x <= a * y
  {
    assert a * y == a * x + a * (y - x);
  }

  /** The budget of batch k as the closing rule gives it: a batch of two
      or more items was still open when its last item came, so its length
      times the running maximum at that point, which covers the starting
      maximum maxLen, every size in an earlier batch and every size in it
      but the last, is within limit. */
  predicate BatchWithinBudget(bs: seq<seq<nat>>, k: nat, limit: nat, maxLen: nat)
    requires k < |bs|
  {
    |bs[k]| >= 2 ==>
      && |bs[k]| * maxLen <= limit
      && (forall j, i :: 0 <= j < k && 0 <= i < |bs[j]| ==> |bs[k]| * bs[j][i] <= limit)
      && (forall i :: 0 <= i < |bs[k]| - 1 ==> |bs[k]| * bs[k][i] <= limit)
  }

  predicate WithinBudget(bs: seq<seq<nat>>, limit: nat, maxLen: nat)
  {
    forall k :: 0 <= k < |bs| ==> BatchWithinBudget(bs, k, limit, maxLen)
  }

  /** A lone batch next + [x], or next itself, with next pending under the
      budget: its items but the last are next's, all at most maxLen. */
  lemma PendingFits(b: seq<nat>, next: seq<nat>, maxLen: nat, limit: nat)
    requires next == [] || (|next| + 1) * maxLen <= limit
    requires AtMost(next, maxLen)
    requires b == next || (|b| == |next| + 1 && b[..|next|] == next)
    ensures WithinBudget([b], limit, maxLen)
  {
    var bs := [b];
    assert bs[0] == b;
    if |b| >= 2 {
      assert next != [];
      MulLe(maxLen, |b|, |next| + 1);
      forall i | 0 <= i < |b| - 1 ensures |b| * b[i] <= limit {
        assert b[i] == next[i];
        MulLe(|b|, next[i], maxLen);
      }
    }
  }

  /** Batch k of rest, seen as batch k + 1 of [b] + rest. */
  lemma BatchWithinBudgetCons(b: seq<nat>, rest: seq<seq<nat>>, k: nat, limit: nat, maxLen: nat, restLimit: nat, m: nat)
    requires k < |rest| && BatchWithinBudget(rest, k, restLimit, m)
    requires restLimit <= limit && maxLen <= m && AtMost(b, m)
    ensures BatchWithinBudget([b] + rest, k + 1, limit, maxLen)
  {
    var bs := [b] + rest;
    var r := rest[k];
    assert bs[k + 1] == r;
    if |r| >= 2 {
      MulLe(|r|, maxLen, m);
      forall j, i | 0 <= j < k + 1 && 0 <= i < |bs[j]| ensures |r| * bs[j][i] <= limit {
        if j == 0 {
          assert bs[j] == b;
          MulLe(|r|, b[i], m);
        } else {
          assert bs[j] == rest[j - 1];
          assert |r| * rest[j - 1][i] <= restLimit;
        }
      }
    }
  }

  /** A batch before rest: every later batch's bound at the maximum m it
      started from covers the items of b, all at most m. */
  lemma WithinBudgetCons(b: seq<nat>, rest: seq<seq<nat>>, limit: nat, maxLen: nat, restLimit: nat, m: nat)
    requires WithinBudget([b], limit, maxLen)
    requires WithinBudget(rest, restLimit, m)
    requires restLimit <= limit && maxLen <= m && AtMost(b, m)
    ensures WithinBudget([b] + rest, limit, maxLen)
  {
    var bs := [b] + rest;
    forall k | 0 <= k < |bs| ensures BatchWithinBudget(bs, k, limit, maxLen) {
      if k == 0 {
        assert BatchWithinBudget([b], 0, limit, maxLen);
        assert bs[0] == [b][0];
      } else {
        assert BatchWithinBudget(rest, k - 1, restLimit, m);
        BatchWithinBudgetCons(b, rest, k - 1, limit, maxLen, restLimit, m);
      }
    }
  }

  /** A bound from a larger starting maximum holds from a smaller one. */
  lemma WithinBudgetMono(bs: seq<seq<nat>>, limit: nat, low: nat, high: nat)
    requires WithinBudget(bs, limit, high) && low <= high
    ensures WithinBudget(bs, limit, low)
  {
    forall k | 0 <= k < |bs| ensures BatchWithinBudget(bs, k, limit, low) {
      assert BatchWithinBudget(bs, k, limit, high);
      MulLe(|bs[k]|, low, high);
    }
  }

  /** Every batch of two or more items stays within the budget limit when
      counted at the running maximum before its last item, whether or not
      closing a batch resets the budget (a reset budget of 0 only admits
      single-item batches, which bound nothing). */
  lemma {:induction false} GreedyBudget(sizes: seq<nat>, limit: nat, maxLen: nat, next: seq<nat>, reset: bool)
    requires next == [] || (|next| + 1) * maxLen <= limit
    requires AtMost(next, maxLen)
    ensures WithinBudget(GreedyBatches(sizes, sizes, limit, maxLen, next, reset), limit, maxLen)
    decreases |sizes|
  {
    var bs := GreedyBatches(sizes, sizes, limit, maxLen, next, reset);
    if sizes == [] {
      if next != [] {
        assert bs == [next];
        PendingFits(next, next, maxLen, limit);
      }
    } else {
      var m := if maxLen < sizes[0] then sizes[0] else maxLen;
      var nx := next + [sizes[0]];
      AtMostSnoc(next, sizes[0], maxLen, m);
      if Overflows(|nx| + 1, m, limit) {
        var limit' := if reset then 0 else limit;
        var rest := GreedyBatches(sizes[1..], sizes[1..], limit', m, [], reset);
        assert bs == [nx] + rest;
        GreedyBudget(sizes[1..], limit', m, [], reset);
        assert nx[..|next|] == next;
        PendingFits(nx, next, maxLen, limit);
        WithinBudgetCons(nx, rest, limit, maxLen, limit', m);
      } else {
        assert bs == GreedyBatches(sizes[1..], sizes[1..], limit, m, nx, reset);
        GreedyBudget(sizes[1..], limit, m, nx, reset);
        WithinBudgetMono(bs, limit, maxLen, m);
      }
    }
  }

  /** Every batch holds a single item. */
  predicate Singletons(bs: seq<seq<nat>>)
  {
    forall k :: 0 <= k < |bs| ==> |bs[k]| == 1
  }

  lemma SingletonsCons(b: seq<nat>, rest: seq<seq<nat>>)
    requires |b| == 1 && Singletons(rest)
    ensures Singletons([b] + rest)
  {
    var bs := [b] + rest;
    forall k | 0 <= k < |bs| ensures |bs[k]| == 1 {
      if k > 0 {
        assert bs[k] == rest[k - 1];
      }
    }
  }

  /** With the budget at 0, every batch holds a single item. */
  lemma {:induction false} GreedySingletons(sizes: seq<nat>, maxLen: nat, reset: bool)
    requires 0 < maxLen
    ensures Singletons(GreedyBatches(sizes, sizes, 0, maxLen, [], reset))
    decreases |sizes|
  {
    if sizes != [] {
      var m := if maxLen < sizes[0] then sizes[0] else maxLen;
      var nx := [] + [sizes[0]];
      assert |nx| == 1 && (|nx| + 1) * m > 0;
      var rest := GreedyBatches(sizes[1..], sizes[1..], 0, m, [], reset);
      assert GreedyBatches(sizes, sizes, 0, maxLen, [], reset) == [nx] + rest;
      GreedySingletons(sizes[1..], m, reset);
      SingletonsCons(nx, rest);
    }
  }

  predicate AllPositive(sizes: seq<nat>)
  {
    forall i :: 0 <= i < |sizes| ==> sizes[i] > 0
  }

  /** The code's pass: once a batch has been closed the budget is 0, so every
      batch after the first holds a single item. */
  lemma {:induction false} GreedyCollapse(sizes: seq<nat>, limit: nat, maxLen: nat, next: seq<nat>)
    requires AllPositive(sizes)
    ensures var bs := GreedyBatches(sizes, sizes, limit, maxLen, next, true);
            bs != [] ==> Singletons(bs[1..])
    decreases |sizes|
  {
    if sizes != [] {
      var m := if maxLen < sizes[0] then sizes[0] else maxLen;
      var nx := next + [sizes[0]];
      var bs := GreedyBatches(sizes, sizes, limit, maxLen, next, true);
      assert m > 0;
      if Overflows(|nx| + 1, m, limit) {
        var rest := GreedyBatches(sizes[1..], sizes[1..], 0, m, [], true);
        assert bs == [nx] + rest;
        assert bs[1..] == rest;
        GreedySingletons(sizes[1..], m, true);
      } else {
        assert AllPositive(sizes[1..]) by {
          forall i | 0 <= i < |sizes[1..]| ensures sizes[1..][i] > 0 {
            assert sizes[1..][i] == sizes[i + 1];
          }
        }
        assert bs == GreedyBatches(sizes[1..], sizes[1..], limit, m, nx, true);
        GreedyCollapse(sizes[1..], limit, m, nx);
      }
    }
  }

  /** Five pairs of total size 2 with a budget of 4: the code makes batches
      of 2, 1, 1 and 1 pairs. */
  lemma BudgetResetExample()
    ensures var sizes: seq<nat> := [2, 2, 2, 2, 2];
            GreedyBatches(sizes, sizes, 4, 0, [], true) == [[2, 2], [2], [2], [2]]
  {
    var s5: seq<nat> := [2, 2, 2, 2, 2];
    var s4: seq<nat> := [2, 2, 2, 2];
    var s3: seq<nat> := [2, 2, 2];
    var s2: seq<nat> := [2, 2];
    var s1: seq<nat> := [2];
    var s0: seq<nat> := [];
    assert s5[1..] == s4 && s4[1..] == s3 && s3[1..] == s2 && s2[1..] == s1 && s1[1..] == s0;
    assert s0 + [2] == s1 && s1 + [2] == s2;
    assert GreedyBatches(s1, s1, 0, 2, [], true) == [s1] + GreedyBatches(s0, s0, 0, 2, [], true);
    assert GreedyBatches(s2, s2, 0, 2, [], true) == [s1] + GreedyBatches(s1, s1, 0, 2, [], true);
    assert GreedyBatches(s3, s3, 0, 2, [], true) == [s1] + GreedyBatches(s2, s2, 0, 2, [], true);
    assert GreedyBatches(s4, s4, 4, 2, s1, true) == [s2] + GreedyBatches(s3, s3, 0, 2, [], true);
    assert GreedyBatches(s5, s5, 4, 0, [], true) == GreedyBatches(s4, s4, 4, 2, s1, true);
  }

  /** The same five pairs with the budget kept: batches of 2, 2 and 1. */
  lemma BudgetKeptExample()
    ensures var sizes: seq<nat> := [2, 2, 2, 2, 2];
            GreedyBatches(sizes, sizes, 4, 0, [], false) == [[2, 2], [2, 2], [2]]
  {
    var s5: seq<nat> := [2, 2, 2, 2, 2];
    var s4: seq<nat> := [2, 2, 2, 2];
    var s3: seq<nat> := [2, 2, 2];
    var s2: seq<nat> := [2, 2];
    var s1: seq<nat> := [2];
    var s0: seq<nat> := [];
    assert s5[1..] == s4 && s4[1..] == s3 && s3[1..] == s2 && s2[1..] == s1 && s1[1..] == s0;
    assert s0 + [2] == s1 && s1 + [2] == s2;
    assert GreedyBatches(s1, s1, 4, 2, [], false) == [s1];
    assert GreedyBatches(s2, s2, 4, 2, s1, false) == [s2] + GreedyBatches(s1, s1, 4, 2, [], false);
    assert GreedyBatches(s3, s3, 4, 2, [], false) == GreedyBatches(s2, s2, 4, 2, s1, false);
    assert GreedyBatches(s4, s4, 4, 2, s1, false) == [s2] + GreedyBatches(s3, s3, 4, 2, [], false);
    assert GreedyBatches(s5, s5, 4, 0, [], false) == GreedyBatches(s4, s4, 4, 2, s1, false);
  }

  /** Each batch of two or more sizes, counted at the size of its first,
      is within the budget limit. */
  predicate LeadWithinBudget(bs: seq<seq<nat>>, limit: nat)
  {
    forall k :: 0 <= k < |bs| && |bs[k]| >= 2 ==> |bs[k]| * bs[k][0] <= limit
  }

  lemma LeadWithinBudgetCons(b: seq<nat>, rest: seq<seq<nat>>, limit: nat)
    requires |b| >= 2 ==> |b| * b[0] <= limit
    requires LeadWithinBudget(rest, limit)
    ensures LeadWithinBudget([b] + rest, limit)
  {
    var bs := [b] + rest;
    forall k | 0 <= k < |bs| && |bs[k]| >= 2 ensures |bs[k]| * bs[k][0] <= limit {
      if k > 0 {
        assert bs[k] == rest[k - 1];
      }
    }
  }

  /** Every batch of two or more holds no more than the budget when its items
      are counted at the size of its first. */
  lemma {:induction false} FirstBudget(sizes: seq<nat>, limit: nat, first: nat, next: seq<nat>)
    requires next != [] ==> next[0] == first && (|next| + 1) * first <= limit
    ensures LeadWithinBudget(FirstBatches(sizes, sizes, limit, first, next), limit)
    decreases |sizes|
  {
    var bs := FirstBatches(sizes, sizes, limit, first, next);
    if sizes == [] {
      if next != [] {
        assert bs == [next];
        MulLe(first, |next|, |next| + 1);
        LeadWithinBudgetCons(next, [], limit);
      }
    } else {
      var f := if next == [] then sizes[0] else first;
      var nx := next + [sizes[0]];
      assert nx[0] == f && |nx| == |next| + 1;
      if Overflows(|nx| + 1, f, limit) {
        var rest := FirstBatches(sizes[1..], sizes[1..], limit, f, []);
        assert bs == [nx] + rest;
        FirstBudget(sizes[1..], limit, f, []);
        LeadWithinBudgetCons(nx, rest, limit);
      } else {
        assert bs == FirstBatches(sizes[1..], sizes[1..], limit, f, nx);
        FirstBudget(sizes[1..], limit, f, nx);
      }
    }
  }

  /** Every id is below n. */
  predicate Below(ids: seq<nat>, n: nat)
  {
    forall j :: 0 <= j < |ids| ==> ids[j] < n
  }

  predicate AllBelow(bs: seq<seq<nat>>, n: nat)
  {
    forall k :: 0 <= k < |bs| ==> Below(bs[k], n)
  }

  /** The items each batch of ids names. */
  function Gather<T>(xs: seq<T>, bs: seq<seq<nat>>): (r: seq<seq<T>>)
    requires AllBelow(bs, |xs|)
    ensures |r| == |bs|
  {
    seq(|bs|, k requires 0 <= k < |bs| => Select(xs, bs[k]))
  }

  lemma SelectSnoc<T>(xs: seq<T>, ids: seq<nat>, id: nat)
    requires Below(ids, |xs|) && id < |xs|
    ensures Below(ids + [id], |xs|)
    ensures Select(xs, ids + [id]) == Select(xs, ids) + [xs[id]]
  {
    assert forall j :: 0 <= j < |ids| ==> (ids + [id])[j] == ids[j];
  }

  lemma GatherSnoc<T>(xs: seq<T>, bs: seq<seq<nat>>, b: seq<nat>)
    requires AllBelow(bs, |xs|) && Below(b, |xs|)
    ensures AllBelow(bs + [b], |xs|)
    ensures Gather(xs, bs + [b]) == Gather(xs, bs) + [Select(xs, b)]
  {
    assert forall k :: 0 <= k < |bs| ==> (bs + [b])[k] == bs[k];
  }

  /** Selecting along concatenated ids concatenates the selections. */
  lemma SelectAppend<T>(xs: seq<T>, a: seq<nat>, b: seq<nat>)
    requires Below(a, |xs|) && Below(b, |xs|)
    ensures Below(a + b, |xs|)
    ensures Select(xs, a + b) == Select(xs, a) + Select(xs, b)
  {
    assert forall j :: 0 <= j < |a| ==> (a + b)[j] == a[j];
    assert forall j :: |a| <= j < |a| + |b| ==> (a + b)[j] == b[j - |a|];
  }

  /** The gathered batches, laid end to end, are the items along the ids laid
      end to end. */
  lemma {:induction false} GatherFlatten<T>(xs: seq<T>, bs: seq<seq<nat>>)
    requires AllBelow(bs, |xs|)
    ensures Below(Flatten(bs), |xs|)
    ensures Flatten(Gather(xs, bs)) == Select(xs, Flatten(bs))
    decreases |bs|
  {
    if bs != [] {
      assert AllBelow(bs[1..], |xs|) by {
        forall k | 0 <= k < |bs[1..]| ensures Below(bs[1..][k], |xs|) {
          assert bs[1..][k] == bs[k + 1];
        }
      }
      GatherFlatten(xs, bs[1..]);
      assert Gather(xs, bs)[1..] == Gather(xs, bs[1..]);
      SelectAppend(xs, bs[0], Flatten(bs[1..]));
    }
  }

  /** Grouping ids below n makes batches of ids below n. */
  lemma {:induction false} GreedyBelow(ids: seq<nat>, sizes: seq<nat>, limit: nat, maxLen: nat, next: seq<nat>, reset: bool, n: nat)
    requires |ids| == |sizes| && Below(ids, n) && Below(next, n)
    ensures AllBelow(GreedyBatches(ids, sizes, limit, maxLen, next, reset), n)
    decreases |ids|
  {
    GreedyPartition(ids, sizes, limit, maxLen, next, reset);
    FlattenBelow(GreedyBatches(ids, sizes, limit, maxLen, next, reset), n);
  }

  lemma {:induction false} FirstBelow(ids: seq<nat>, sizes: seq<nat>, limit: nat, first: nat, next: seq<nat>, n: nat)
    requires |ids| == |sizes| && Below(ids, n) && Below(next, n)
    ensures AllBelow(FirstBatches(ids, sizes, limit, first, next), n)
    decreases |ids|
  {
    FirstPartition(ids, sizes, limit, first, next);
    FlattenBelow(FirstBatches(ids, sizes, limit, first, next), n);
  }

  /** Batches whose concatenation is below n are each below n. */
  lemma {:induction false} FlattenBelow(bs: seq<seq<nat>>, n: nat)
    requires Below(Flatten(bs), n)
    ensures AllBelow(bs, n)
    decreases |bs|
  {
    if bs != [] {
      var f := Flatten(bs[1..]);
      assert Flatten(bs) == bs[0] + f;
      assert forall j :: 0 <= j < |bs[0]| ==> (bs[0] + f)[j] == bs[0][j];
      assert forall j :: 0 <= j < |f| ==> (bs[0] + f)[|bs[0]| + j] == f[j];
      FlattenBelow(bs[1..], n);
      forall k | 0 <= k < |bs| ensures Below(bs[k], n) {
        if k > 0 {
          assert bs[k] == bs[1..][k - 1];
        }
      }
    }
  }

  lemma IotaBelow(ids: seq<nat>, n: nat)
    requires multiset(ids) == multiset(Iota(n))
    ensures Below(ids, n)
  {
    forall j | 0 <= j < |ids| ensures ids[j] < n {
      assert ids[j] in multiset(ids);
      assert ids[j] in Iota(n);
    }
  }

  /** Every item along the ids lands in exactly one gathered batch, in
      order: the gathered batches laid end to end are the items along the
      ids. */
  lemma GatheredCover<T>(xs: seq<T>, ids: seq<nat>, sizes: seq<nat>, limit: nat, reset: bool)
    requires |ids| == |sizes| && Below(ids, |xs|)
    ensures AllBelow(GreedyBatches(ids, sizes, limit, 0, [], reset), |xs|)
    ensures Flatten(Gather(xs, GreedyBatches(ids, sizes, limit, 0, [], reset))) == Select(xs, ids)
  {
    GreedyBelow(ids, sizes, limit, 0, [], reset, |xs|);
    GreedyPartition(ids, sizes, limit, 0, [], reset);
    GatherFlatten(xs, GreedyBatches(ids, sizes, limit, 0, [], reset));
  }

  lemma FirstGatheredCover<T>(xs: seq<T>, ids: seq<nat>, sizes: seq<nat>, limit: nat)
    requires |ids| == |sizes| && Below(ids, |xs|)
    ensures AllBelow(FirstBatches(ids, sizes, limit, 0, []), |xs|)
    ensures Flatten(Gather(xs, FirstBatches(ids, sizes, limit, 0, []))) == Select(xs, ids)
  {
    FirstBelow(ids, sizes, limit, 0, [], |xs|);
    FirstPartition(ids, sizes, limit, 0, []);
    GatherFlatten(xs, FirstBatches(ids, sizes, limit, 0, []));
  }

  /** A stream of the loop (sources, targets or cache) holds the items the
      pending ids and the closed batches of ids name. */
  ghost predicate Tracks<T>(xs: seq<T>, next: seq<T>, batches: seq<seq<T>>, idNext: seq<nat>, idBatches: seq<seq<nat>>)
  {
    && Below(idNext, |xs|) && AllBelow(idBatches, |xs|)
    && next == Select(xs, idNext) && batches == Gather(xs, idBatches)
  }

  lemma TracksPush<T>(xs: seq<T>, next: seq<T>, batches: seq<seq<T>>, idNext: seq<nat>, idBatches: seq<seq<nat>>, id: nat)
    requires Tracks(xs, next, batches, idNext, idBatches) && id < |xs|
    ensures Tracks(xs, next + [xs[id]], batches, idNext + [id], idBatches)
  {
    SelectSnoc(xs, idNext, id);
  }

  lemma TracksClose<T>(xs: seq<T>, next: seq<T>, batches: seq<seq<T>>, idNext: seq<nat>, idBatches: seq<seq<nat>>)
    requires Tracks(xs, next, batches, idNext, idBatches)
    ensures Tracks(xs, [], batches + [next], [], idBatches + [idNext])
  {
    GatherSnoc(xs, idBatches, idNext);
  }

  /** The three streams of the bilingual loop (sources, targets and, when
      there is one, the cache) track the same pending and closed ids. */
  ghost predicate StreamsTrack<T>(src: seq<Sentence>, trg: seq<T>, cache: seq<T>,
                                  srcNext: seq<Sentence>, trgNext: seq<T>, cacheNext: seq<T>,
                                  srcBatches: seq<seq<Sentence>>, trgBatches: seq<seq<T>>, cacheBatches: seq<seq<T>>,
                                  idNext: seq<nat>, idBatches: seq<seq<nat>>)
    requires |trg| <= |src| && (cache == [] || |trg| <= |cache|)
  {
    && Tracks(src[..|trg|], srcNext, srcBatches, idNext, idBatches)
    && Tracks(trg, trgNext, trgBatches, idNext, idBatches)
    && (cache == [] ==> cacheBatches == [] && cacheNext == [])
    && (cache != [] ==> Tracks(cache[..|trg|], cacheNext, cacheBatches, idNext, idBatches))
  }

  /** Pushes the sentence id onto the pending batch of every stream. */
  method PushStreams<T>(src: seq<Sentence>, trg: seq<T>, cache: seq<T>, id: nat,
                        srcNext: seq<Sentence>, trgNext: seq<T>, cacheNext: seq<T>,
                        ghost srcBatches: seq<seq<Sentence>>, ghost trgBatches: seq<seq<T>>, ghost cacheBatches: seq<seq<T>>,
                        ghost idNext: seq<nat>, ghost idBatches: seq<seq<nat>>)
    returns (srcNext': seq<Sentence>, trgNext': seq<T>, cacheNext': seq<T>)
    requires |trg| <= |src| && (cache == [] || |trg| <= |cache|) && id < |trg|
    requires StreamsTrack(src, trg, cache, srcNext, trgNext, cacheNext, srcBatches, trgBatches, cacheBatches, idNext, idBatches)
    ensures StreamsTrack(src, trg, cache, srcNext', trgNext', cacheNext', srcBatches, trgBatches, cacheBatches,
                         idNext + [id], idBatches)
    ensures srcNext' == srcNext + [src[id]] && trgNext' == trgNext + [trg[id]]
    ensures cacheNext' == if |cache| > 0 then cacheNext + [cache[id]] else cacheNext
  {
    ghost var src' := src[..|trg|];
    assert src'[id] == src[id];
    TracksPush(src', srcNext, srcBatches, idNext, idBatches, id);
    TracksPush(trg, trgNext, trgBatches, idNext, idBatches, id);
    srcNext' := srcNext + [src[id]];
    trgNext' := trgNext + [trg[id]];
    cacheNext' := cacheNext;
    if |cache| > 0 {
      ghost var cache' := cache[..|trg|];
      TracksPush(cache', cacheNext, cacheBatches, idNext, idBatches, id);
      assert cache'[id] == cache[id];
      cacheNext' := cacheNext + [cache[id]];
    }
  }

  /** Closes the pending batch of every stream. */
  method CloseStreams<T>(src: seq<Sentence>, trg: seq<T>, cache: seq<T>,
                         srcNext: seq<Sentence>, trgNext: seq<T>, cacheNext: seq<T>,
                         srcBatches: seq<seq<Sentence>>, trgBatches: seq<seq<T>>, cacheBatches: seq<seq<T>>,
                         ghost idNext: seq<nat>, ghost idBatches: seq<seq<nat>>)
    returns (srcBatches': seq<seq<Sentence>>, trgBatches': seq<seq<T>>, cacheBatches': seq<seq<T>>)
    requires |trg| <= |src| && (cache == [] || |trg| <= |cache|)
    requires StreamsTrack(src, trg, cache, srcNext, trgNext, cacheNext, srcBatches, trgBatches, cacheBatches, idNext, idBatches)
    ensures StreamsTrack(src, trg, cache, [], [], [], srcBatches', trgBatches', cacheBatches', [], idBatches + [idNext])
    ensures srcBatches' == srcBatches + [srcNext] && trgBatches' == trgBatches + [trgNext]
    ensures cacheBatches' == if |cache| > 0 then cacheBatches + [cacheNext] else cacheBatches
  {
    TracksClose(src[..|trg|], srcNext, srcBatches, idNext, idBatches);
    TracksClose(trg, trgNext, trgBatches, idNext, idBatches);
    srcBatches' := srcBatches + [srcNext];
    trgBatches' := trgBatches + [trgNext];
    cacheBatches' := cacheBatches;
    if |cache| > 0 {
      TracksClose(cache[..|trg|], cacheNext, cacheBatches, idNext, idBatches);
      cacheBatches' := cacheBatches + [cacheNext];
    }
  }

  /** One iteration of the grouping loop: sentence ids[i] joins the pending
      batch of every stream, and the batch is closed when one more item at
      the running maximum would exceed the budget, which closing sets to 0. */
  method GroupStep<T>(src: seq<Sentence>, trg: seq<T>, cache: seq<T>, ids: seq<nat>, ghost sizes: seq<nat>,
                      ghost groups: seq<seq<nat>>, trgSize: T -> nat, i: nat, budget: CInt, maxLen: nat,
                      srcNext: seq<Sentence>, trgNext: seq<T>, cacheNext: seq<T>,
                      srcBatches: seq<seq<Sentence>>, trgBatches: seq<seq<T>>, cacheBatches: seq<seq<T>>,
                      ghost idNext: seq<nat>, ghost idBatches: seq<seq<nat>>)
    returns (budget': CInt, maxLen': nat, srcNext': seq<Sentence>, trgNext': seq<T>, cacheNext': seq<T>,
             srcBatches': seq<seq<Sentence>>, trgBatches': seq<seq<T>>, cacheBatches': seq<seq<T>>,
             ghost idNext': seq<nat>, ghost idBatches': seq<seq<nat>>)
    requires |trg| <= |src| && (cache == [] || |trg| <= |cache|)
    requires |ids| == |trg| && Below(ids, |trg|) && i < |ids| && |sizes| == |ids|
    requires sizes[i] == CalcSize(src[ids[i]], trg[ids[i]], trgSize)
    requires idBatches + GreedyBatches(ids[i..], sizes[i..], SizeT(budget), maxLen, idNext, true) == groups
    requires StreamsTrack(src, trg, cache, srcNext, trgNext, cacheNext, srcBatches, trgBatches, cacheBatches, idNext, idBatches)
    ensures idBatches' + GreedyBatches(ids[i + 1..], sizes[i + 1..], SizeT(budget'), maxLen', idNext', true) == groups
    ensures StreamsTrack(src, trg, cache, srcNext', trgNext', cacheNext', srcBatches', trgBatches', cacheBatches',
                         idNext', idBatches')
  {
    var size := CalcSize(src[ids[i]], trg[ids[i]], trgSize);
    maxLen' := if maxLen < size then size else maxLen;
    srcNext', trgNext', cacheNext' := PushStreams(src, trg, cache, ids[i], srcNext, trgNext, cacheNext,
                                                  srcBatches, trgBatches, cacheBatches, idNext, idBatches);
    idNext' := idNext + [ids[i]];
    assert |trgNext'| + 1 == |idNext| + 2;
    srcBatches', trgBatches', cacheBatches', idBatches', budget' := srcBatches, trgBatches, cacheBatches, idBatches, budget;
    if Overflows(|trgNext'| + 1, maxLen', SizeT(budget)) {
      srcBatches', trgBatches', cacheBatches' := CloseStreams(src, trg, cache, srcNext', trgNext', cacheNext',
                                                              srcBatches, trgBatches, cacheBatches, idNext', idBatches);
      srcNext', trgNext', cacheNext' := [], [], [];
      idBatches' := idBatches + [idNext'];
      idNext' := [];
      budget' := 0;
    }
    GreedyStep(ids, sizes, i, SizeT(budget), maxLen, idNext, idBatches, groups, SizeT(budget'), maxLen', idNext', idBatches');
  }

  /** Bilingual `CreateMinibatches`: sorts the ids by length, groups the
      sorted ids greedily, and gives each group as its sources, its targets
      and (when there is a cache) its cache entries.  The sorted order is
      returned as well. */
  method CreateMinibatches<T>(src: seq<Sentence>, trg: seq<T>, cache: seq<T>, maxSize: CInt, trgSize: T -> nat)
    returns (ids: seq<nat>, srcBatches: seq<seq<Sentence>>, trgBatches: seq<seq<T>>, cacheBatches: seq<seq<T>>)
    requires |trg| <= |src|
    requires cache == [] || |trg| <= |cache|
    ensures |ids| == |trg| && multiset(ids) == multiset(Iota(|trg|)) && Below(ids, |trg|)
    ensures InRange(BiKeys(src, trg, trgSize), ids) && SortedBy(BiKeys(src, trg, trgSize), ids)
    ensures var groups := GreedyBatches(ids, BiSizes(src, trg, trgSize, ids), SizeT(maxSize), 0, [], true);
            && AllBelow(groups, |trg|)
            && srcBatches == Gather(src[..|trg|], groups)
            && trgBatches == Gather(trg, groups)
            && (cache == [] ==> cacheBatches == [])
            && (cache != [] ==> cacheBatches == Gather(cache[..|trg|], groups))
  {
    ids := SortIds(BiKeys(src, trg, trgSize));
    IotaBelow(ids, |trg|);
    srcBatches, trgBatches, cacheBatches := GroupSorted(src, trg, cache, ids, maxSize, trgSize);
  }

  /** The grouping loop of bilingual `CreateMinibatches` over the sorted ids. */
  method GroupSorted<T>(src: seq<Sentence>, trg: seq<T>, cache: seq<T>, ids: seq<nat>, maxSize: CInt, trgSize: T -> nat)
    returns (srcBatches: seq<seq<Sentence>>, trgBatches: seq<seq<T>>, cacheBatches: seq<seq<T>>)
    requires |trg| <= |src|
    requires cache == [] || |trg| <= |cache|
    requires |ids| == |trg| && Below(ids, |trg|)
    ensures var groups := GreedyBatches(ids, BiSizes(src, trg, trgSize, ids), SizeT(maxSize), 0, [], true);
            && AllBelow(groups, |trg|)
            && srcBatches == Gather(src[..|trg|], groups)
            && trgBatches == Gather(trg, groups)
            && (cache == [] ==> cacheBatches == [])
            && (cache != [] ==> cacheBatches == Gather(cache[..|trg|], groups))
  {
    ghost var n := |trg|;
    ghost var sizes := BiSizes(src, trg, trgSize, ids);
    ghost var limit := SizeT(maxSize);
    ghost var groups := GreedyBatches(ids, sizes, limit, 0, [], true);
    GreedyBelow(ids, sizes, limit, 0, [], true, n);
    ghost var src' := src[..n];
    ghost var cache' := if cache == [] then [] else cache[..n];
    ghost var idNext: seq<nat> := [];
    ghost var idBatches: seq<seq<nat>> := [];
    var srcNext: seq<Sentence> := [];
    var trgNext: seq<T> := [];
    var cacheNext: seq<T> := [];
    srcBatches, trgBatches, cacheBatches := [], [], [];
    var budget: CInt := maxSize;
    var maxLen: nat := 0;
    assert ids[0..] == ids && sizes[0..] == sizes;
    for i := 0 to |ids|
      invariant idBatches + GreedyBatches(ids[i..], sizes[i..], SizeT(budget), maxLen, idNext, true) == groups
      invariant StreamsTrack(src, trg, cache, srcNext, trgNext, cacheNext, srcBatches, trgBatches, cacheBatches, idNext, idBatches)
    {
      assert sizes[i] == CalcSize(src[ids[i]], trg[ids[i]], trgSize);
      budget, maxLen, srcNext, trgNext, cacheNext, srcBatches, trgBatches, cacheBatches, idNext, idBatches :=
        GroupStep(src, trg, cache, ids, sizes, groups, trgSize, i, budget, maxLen,
                  srcNext, trgNext, cacheNext, srcBatches, trgBatches, cacheBatches, idNext, idBatches);
    }
    if |trgNext| > 0 {
      TracksClose(src', srcNext, srcBatches, idNext, idBatches);
      TracksClose(trg, trgNext, trgBatches, idNext, idBatches);
      srcBatches := srcBatches + [srcNext];
      trgBatches := trgBatches + [trgNext];
    }
    if |cacheNext| > 0 {
      TracksClose(cache', cacheNext, cacheBatches, idNext, idBatches);
      cacheBatches := cacheBatches + [cacheNext];
    }
    assert ids[|ids|..] == [];
  }

  /** The monolingual sort keys: the sentence length alone. */
  function MonoKeys(trg: seq<Sentence>): (keys: seq<LenKey>)
    ensures |keys| == |trg|
  {
    seq(|trg|, i requires 0 <= i < |trg| => LenKey(|trg[i]|, 0))
  }

  /** The lengths of the sentences at the given ids. */
  function MonoSizes(trg: seq<Sentence>, ids: seq<nat>): (r: seq<nat>)
    requires forall k :: 0 <= k < |ids| ==> ids[k] < |trg|
    ensures |r| == |ids|
  {
    seq(|ids|, k requires 0 <= k < |ids| => |trg[ids[k]]|)
  }

  /** Monolingual `CreateMinibatches`: sorts the ids by length, groups the
      sorted ids greedily measuring each group by its first sentence, and
      gives each group as its sentences and (when there is a cache) its cache
      entries. */
  method CreateMinibatchesMono(trg: seq<Sentence>, cache: seq<Sentence>, maxSize: CInt)
    returns (ids: seq<nat>, trgBatches: seq<seq<Sentence>>, cacheBatches: seq<seq<Sentence>>)
    requires cache == [] || |trg| <= |cache|
    ensures |ids| == |trg| && multiset(ids) == multiset(Iota(|trg|)) && Below(ids, |trg|)
    ensures InRange(MonoKeys(trg), ids) && SortedBy(MonoKeys(trg), ids)
    ensures var groups := FirstBatches(ids, MonoSizes(trg, ids), SizeT(maxSize), 0, []);
            && AllBelow(groups, |trg|)
            && trgBatches == Gather(trg, groups)
            && (cache == [] ==> cacheBatches == [])
            && (cache != [] ==> cacheBatches == Gather(cache[..|trg|], groups))
  {
    ids := SortIds(MonoKeys(trg));
    IotaBelow(ids, |trg|);
    ghost var n := |trg|;
    ghost var sizes := MonoSizes(trg, ids);
    ghost var limit := SizeT(maxSize);
    ghost var groups := FirstBatches(ids, sizes, limit, 0, []);
    FirstBelow(ids, sizes, limit, 0, [], n);
    ghost var cache' := if cache == [] then [] else cache[..n];
    ghost var idNext: seq<nat> := [];
    ghost var idBatches: seq<seq<nat>> := [];
    var trgNext: seq<Sentence> := [];
    var cacheNext: seq<Sentence> := [];
    trgBatches, cacheBatches := [], [];
    var firstSize: nat := 0;
    assert ids[0..] == ids && sizes[0..] == sizes;
    for i := 0 to |ids|
      invariant idBatches + FirstBatches(ids[i..], sizes[i..], limit, firstSize, idNext) == groups
      invariant Tracks(trg, trgNext, trgBatches, idNext, idBatches)
      invariant cache == [] ==> cacheBatches == [] && cacheNext == []
      invariant cache != [] ==> Tracks(cache', cacheNext, cacheBatches, idNext, idBatches)
    {
      ghost var (first0, idNext0, idBatches0) := (firstSize, idNext, idBatches);
      assert sizes[i] == |trg[ids[i]]|;
      if |trgNext| == 0 {
        firstSize := |trg[ids[i]]|;
      }
      TracksPush(trg, trgNext, trgBatches, idNext, idBatches, ids[i]);
      trgNext := trgNext + [trg[ids[i]]];
      if |cache| > 0 {
        TracksPush(cache', cacheNext, cacheBatches, idNext, idBatches, ids[i]);
        assert cache'[ids[i]] == cache[ids[i]];
        cacheNext := cacheNext + [cache[ids[i]]];
      }
      idNext := idNext + [ids[i]];
      assert |trgNext| + 1 == |idNext0| + 2;
      if Overflows(|trgNext| + 1, firstSize, SizeT(maxSize)) {
        TracksClose(trg, trgNext, trgBatches, idNext, idBatches);
        trgBatches := trgBatches + [trgNext];
        trgNext := [];
        if |cache| > 0 {
          TracksClose(cache', cacheNext, cacheBatches, idNext, idBatches);
          cacheBatches := cacheBatches + [cacheNext];
          cacheNext := [];
        }
        idBatches := idBatches + [idNext];
        idNext := [];
      }
      FirstStep(ids, sizes, i, limit, first0, idNext0, idBatches0, groups, firstSize, idNext, idBatches);
    }
    if |trgNext| > 0 {
      TracksClose(trg, trgNext, trgBatches, idNext, idBatches);
      trgBatches := trgBatches + [trgNext];
    }
    if |cacheNext| > 0 {
      TracksClose(cache', cacheNext, cacheBatches, idNext, idBatches);
      cacheBatches := cacheBatches + [cacheNext];
    }
    assert ids[|ids|..] == [];
  }

  // ---------------------------------------------------------------------
  // Model type and required options.

  /** The model kinds `lamtram-train` can train. */
  datatype ModelType = Nlm | EncDec | EncAtt | EncCls

  /** The name each kind is given by on the command line. */
  function ModelTypeName(m: ModelType): string
  {
    match m
    case Nlm => "nlm"
    case EncDec => "encdec"
    case EncAtt => "encatt"
    case EncCls => "enccls"
  }

  /** The model-type sanity check: nothing but the four names is accepted. */
  function ParseModelType(s: string): (r: Result<ModelType>)
    ensures r.Ok? <==> s in {"nlm", "encdec", "encatt", "enccls"}
    ensures r.Ok? ==> ModelTypeName(r.value) == s
    ensures r.Err? ==> r.error == BadModelType
  {
    if s == "nlm" then Ok(Nlm)
    else if s == "encdec" then Ok(EncDec)
    else if s == "encatt" then Ok(EncAtt)
    else if s == "enccls" then Ok(EncCls)
    else Err(BadModelType)
  }

  lemma ModelTypeRoundTrip(m: ModelType)
    ensures ParseModelType(ModelTypeName(m)) == Ok(m)
  {
  }

  /** `use_src`: every kind but the language model trains on source text. */
  predicate UsesSource(m: ModelType)
  {
    m == EncDec || m == EncCls || m == EncAtt
  }

  /** The string options the sanity checks read, each defaulting to "". */
  datatype TrainOptions = TrainOptions(
    modelType: string, wildcards: string, trainTrg: string, devTrg: string,
    modelOut: string, trainSrc: string, devSrc: string)

  /** What the checks leave behind for training. */
  datatype TrainSetup = TrainSetup(
    modelType: ModelType, trainFilesTrg: seq<string>, trainFilesSrc: seq<string>,
    devFileTrg: string, devFileSrc: string, modelOut: string)

  /** The training file names a pattern stands for, the wildcards being the
      pipe-separated wildcard option. */
  function TrainFiles(pattern: string, wildcards: string): seq<string>
  {
    StringUtil.Wildcarded(pattern, StringUtil.DelimTokens(wildcards, "|"), "|")
  }

  /** The source-side check: a model with a source side needs a source
      training file, and a source development file when a target one is given. */
  predicate SourceMissing(mt: ModelType, o: TrainOptions)
  {
    UsesSource(mt) && (TrainFiles(o.trainSrc, o.wildcards) == [] || (o.devTrg != "" && o.devSrc == ""))
  }

  /** The sanity checks of `main`, in the code's order: the model type, a
      training file, a model output file, then (for models with a source
      side) a source training file and, when there is a target development
      file, a source one. */
  function CheckOptions(o: TrainOptions): (r: Result<TrainSetup>)
    ensures r.Ok? ==> o.modelOut != "" && ModelTypeName(r.value.modelType) == o.modelType
    ensures r.Ok? ==> r.value.trainFilesTrg == TrainFiles(o.trainTrg, o.wildcards) && r.value.trainFilesTrg != []
    ensures r.Ok? && UsesSource(r.value.modelType) ==>
              r.value.trainFilesSrc != [] && (o.devTrg != "" ==> o.devSrc != "")
    ensures r.Ok? ==> r.value.trainFilesSrc == TrainFiles(o.trainSrc, o.wildcards)
                      && r.value.devFileTrg == o.devTrg && r.value.devFileSrc == o.devSrc
                      && r.value.modelOut == o.modelOut
    // Each check raises its own error, and only when every earlier one passed.
    ensures r == Err(BadModelType) <==> ParseModelType(o.modelType).Err?
    ensures r == Err(MissingTrainFile) <==>
              ParseModelType(o.modelType).Ok? && TrainFiles(o.trainTrg, o.wildcards) == []
    ensures r == Err(MissingModelOut) <==>
              ParseModelType(o.modelType).Ok? && TrainFiles(o.trainTrg, o.wildcards) != [] && o.modelOut == ""
    ensures r == Err(MissingSourceFile) <==>
              ParseModelType(o.modelType).Ok? && TrainFiles(o.trainTrg, o.wildcards) != [] && o.modelOut != ""
              && SourceMissing(ParseModelType(o.modelType).value, o)
    ensures r.Ok? <==>
              ParseModelType(o.modelType).Ok? && TrainFiles(o.trainTrg, o.wildcards) != [] && o.modelOut != ""
              && !SourceMissing(ParseModelType(o.modelType).value, o)
  {
    match ParseModelType(o.modelType)
    case Err(e) => Err(e)
    case Ok(mt) =>
      var trgFiles := TrainFiles(o.trainTrg, o.wildcards);
      if |trgFiles| == 0 then Err(MissingTrainFile)
      else if |o.modelOut| == 0 then Err(MissingModelOut)
      else
        var srcFiles := TrainFiles(o.trainSrc, o.wildcards);
        if UsesSource(mt) && (|srcFiles| == 0 || (|o.devTrg| > 0 && |o.devSrc| == 0)) then Err(MissingSourceFile)
        else Ok(TrainSetup(mt, trgFiles, srcFiles, o.devTrg, o.devSrc, o.modelOut))
  }

  lemma DelimTokensEmpty(s: string)
    ensures StringUtil.DelimTokens(s, "|") == [] <==> s == ""
  {
    if s != "" {
      assert |StringUtil.Pieces(s, "|", 0)| >= 1;
    }
  }

  /** The training-file check fires for one input only: a pattern holding
      "WILD" with no wildcards given.  Without "WILD" the pattern always
      names at least one file, the empty one included. */
  lemma MissingTrainFileOnlyWild(o: TrainOptions)
    requires CheckOptions(o) == Err(MissingTrainFile)
    ensures StringUtil.FindFrom(o.trainTrg, "WILD", 0).Some? && o.wildcards == ""
  {
    var ws := StringUtil.DelimTokens(o.wildcards, "|");
    StringUtil.WildcardedCount(o.trainTrg, ws, "|");
    DelimTokensEmpty(o.wildcards);
  }

  /** The code as written: leaving the training file option at its default
      passes the check, with the single file name "". */
  lemma EmptyTrainFileAccepted(o: TrainOptions)
    requires o.modelType == "nlm" && o.trainTrg == "" && o.modelOut != ""
    ensures CheckOptions(o).Ok? && CheckOptions(o).value.trainFilesTrg == [""]
  {
    StringUtil.WildcardedCount("", StringUtil.DelimTokens(o.wildcards, "|"), "|");
  }

  /** The checks with empty file names discarded before they are counted. */
  function CheckOptionsNamed(o: TrainOptions): (r: Result<TrainSetup>)
    ensures r.Ok? ==> o.modelOut != "" && ModelTypeName(r.value.modelType) == o.modelType
    ensures r.Ok? ==> r.value.trainFilesTrg != [] && forall i :: 0 <= i < |r.value.trainFilesTrg| ==> r.value.trainFilesTrg[i] != ""
    ensures ParseModelType(o.modelType).Err? ==> r == Err(BadModelType)
  {
    match ParseModelType(o.modelType)
    case Err(e) => Err(e)
    case Ok(mt) =>
      var trgFiles := NonEmpty(TrainFiles(o.trainTrg, o.wildcards));
      if |trgFiles| == 0 then Err(MissingTrainFile)
      else if |o.modelOut| == 0 then Err(MissingModelOut)
      else
        var srcFiles := NonEmpty(TrainFiles(o.trainSrc, o.wildcards));
        if UsesSource(mt) && (|srcFiles| == 0 || (|o.devTrg| > 0 && |o.devSrc| == 0)) then Err(MissingSourceFile)
        else Ok(TrainSetup(mt, trgFiles, srcFiles, o.devTrg, o.devSrc, o.modelOut))
  }

  /** Corrected, the default training file option is rejected. */
  lemma EmptyTrainFileRejected(o: TrainOptions)
    requires ParseModelType(o.modelType).Ok? && o.trainTrg == ""
    ensures CheckOptionsNamed(o) == Err(MissingTrainFile)
  {
    StringUtil.WildcardedCount("", StringUtil.DelimTokens(o.wildcards, "|"), "|");
    assert NonEmpty([""]) == [] + NonEmpty([""][1..]);
  }

  /** Where every file name is a real one, the corrected checks agree with
      the code's. */
  lemma CheckOptionsNamedAgrees(o: TrainOptions)
    requires forall i :: 0 <= i < |TrainFiles(o.trainTrg, o.wildcards)| ==> TrainFiles(o.trainTrg, o.wildcards)[i] != ""
    requires forall i :: 0 <= i < |TrainFiles(o.trainSrc, o.wildcards)| ==> TrainFiles(o.trainSrc, o.wildcards)[i] != ""
    ensures CheckOptionsNamed(o) == CheckOptions(o)
  {
    NonEmptyOfNonEmpty(TrainFiles(o.trainTrg, o.wildcards));
    NonEmptyOfNonEmpty(TrainFiles(o.trainSrc, o.wildcards));
  }

  // ---------------------------------------------------------------------
  // Trainer selection.

  /** The optimisers `GetTrainer` can create. */
  datatype Trainer = SimpleSgd | MomentumSgd | Adagrad | Adadelta | Adam

  function TrainerName(t: Trainer): string
  {
    match t
    case SimpleSgd => "sgd"
    case MomentumSgd => "momentum"
    case Adagrad => "adagrad"
    case Adadelta => "adadelta"
    case Adam => "adam"
  }

  /** `GetTrainer`: the optimiser a trainer name selects; any other name is
      an illegal trainer variety. */
  function GetTrainer(id: string): (r: Result<Trainer>)
    ensures r.Ok? ==> TrainerName(r.value) == id
    ensures r.Err? <==> id !in {"sgd", "momentum", "adagrad", "adadelta", "adam"}
    ensures r.Err? ==> r.error == IllegalTrainer
  {
    if id == "sgd" then Ok(SimpleSgd)
    else if id == "momentum" then Ok(MomentumSgd)
    else if id == "adagrad" then Ok(Adagrad)
    else if id == "adadelta" then Ok(Adadelta)
    else if id == "adam" then Ok(Adam)
    else Err(IllegalTrainer)
  }

  lemma TrainerRoundTrip(t: Trainer)
    ensures GetTrainer(TrainerName(t)) == Ok(t)
  {
  }
}
