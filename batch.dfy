/**
 * The batch stage of `main`: one `fetch_one` per dispatched id, then the
 * `as_completed` loop that appends each outcome to `results` or `notfound`.
 * Futures complete in an order the model does not know, so the loop is
 * run over an arbitrary permutation of the dispatch positions.
 */
module Batch {
  import opened Fetch

  /** One submitted future: the id it was submitted for and what `fetch_one` returned. */
  datatype Dispatch = Dispatch(id: int, outcome: Outcome)

  function Range(n: nat): (r: seq<nat>)
    ensures |r| == n && forall j :: 0 <= j < n ==> r[j] == j
  {
    seq(n, j => j)
  }

  /** `order` lists every position 0..n-1 exactly once. */
  predicate IsPermutation(order: seq<nat>, n: nat)
  {
    multiset(order) == multiset(Range(n))
  }

  /** What one future contributes to a list, the contributions read in the sequence's order. */
  function Gather<A, T>(xs: seq<A>, pick: A -> seq<T>): seq<T>
  {
    if xs == [] then [] else Gather(xs[..|xs| - 1], pick) + pick(xs[|xs| - 1])
  }

  /** The future dispatched at position k, if there is one. */
  function PickAt(d: seq<Dispatch>): nat -> seq<Dispatch>
  {
    (k: nat) => if k < |d| then [d[k]] else []
  }

  /** The dispatched futures in the order `order` yields their positions. */
  function Completed(d: seq<Dispatch>, order: seq<nat>): seq<Dispatch>
  {
    Gather(order, PickAt(d))
  }

  function NotFoundPick(x: Dispatch): seq<int>
  {
    if x.outcome.NotFound? then [x.id] else []
  }

  function FoundPick(x: Dispatch): seq<Record>
  {
    if x.outcome.Found? then [x.outcome.record] else []
  }

  function FoundIdPick(x: Dispatch): seq<int>
  {
    if x.outcome.Found? then [x.id] else []
  }

  function DroppedPick(x: Dispatch): seq<int>
  {
    if x.outcome.Dropped? then [x.id] else []
  }

  /** The `notfound` list built from futures completing in the order `c`. */
  function NotFoundIds(c: seq<Dispatch>): seq<int>
  {
    Gather(c, NotFoundPick)
  }

  /** The `results` list built from futures completing in the order `c`. */
  function FoundRecords(c: seq<Dispatch>): seq<Record>
  {
    Gather(c, FoundPick)
  }

  /** The ids whose outcome was None: they are reported nowhere. */
  function DroppedIds(c: seq<Dispatch>): seq<int>
  {
    Gather(c, DroppedPick)
  }

  function Ids(c: seq<Dispatch>): (r: seq<int>)
    ensures |r| == |c| && forall k :: 0 <= k < |c| ==> r[k] == c[k].id
  {
    seq(|c|, k requires 0 <= k < |c| => c[k].id)
  }

  /** The ids of the rows in `results`; the counterpart of `Ids` for records rather than futures. */
  function RecordIds(rs: seq<Record>): (r: seq<int>)
    ensures |r| == |rs| && forall k :: 0 <= k < |rs| ==> r[k] == rs[k].id
  {
    seq(|rs|, k requires 0 <= k < |rs| => rs[k].id)
  }

  /** Every found record carries the id its future was submitted for. */
  predicate RecordsCarryIds(c: seq<Dispatch>)
  {
    forall k :: 0 <= k < |c| && c[k].outcome.Found? ==> c[k].outcome.record.id == c[k].id
  }

  /** The futures of a batch, one per position, each holding `fetch_one` of its id. */
  function Dispatched(ids: seq<int>, replies: seq<Reply>): (d: seq<Dispatch>)
    requires |replies| == |ids|
    ensures |d| == |ids| && Ids(d) == ids && RecordsCarryIds(d)
  {
    seq(|ids|, k requires 0 <= k < |ids| => Dispatch(ids[k], FetchOutcome(ids[k], replies[k])))
  }

  lemma {:induction false} GatherAppend<A, T>(a: seq<A>, b: seq<A>, pick: A -> seq<T>)
    ensures Gather(a + b, pick) == Gather(a, pick) + Gather(b, pick)
    decreases |b|
  {
    if b == [] {
      assert a + b == a;
    } else {
      var b' := b[..|b| - 1];
      assert (a + b)[..|a + b| - 1] == a + b';
      GatherAppend(a, b', pick);
    }
  }

  lemma GatherSingle<A, T>(x: A, pick: A -> seq<T>)
    ensures Gather([x], pick) == pick(x)
  {
    assert [x][..0] == [];
  }

  /** Removing the same element from two equal multisets of sequences. */
  lemma RemoveOne<T>(init: seq<T>, x: T, before: seq<T>, after: seq<T>)
    requires multiset(init + [x]) == multiset(before + [x] + after)
    ensures multiset(init) == multiset(before + after)
  {
    assert multiset(init + [x]) == multiset(init) + multiset{x};
    assert multiset(before + [x] + after) == multiset(before + after) + multiset{x};
    assert multiset(init) == multiset(init + [x]) - multiset{x};
    assert multiset(before + after) == multiset(before + [x] + after) - multiset{x};
  }

  /** How the futures complete changes the order of a gathered list, never its contents. */
  lemma {:induction false} GatherPermutation<A, T>(c1: seq<A>, c2: seq<A>, pick: A -> seq<T>)
    requires multiset(c1) == multiset(c2)
    ensures multiset(Gather(c1, pick)) == multiset(Gather(c2, pick))
    decreases |c1|
  {
    if c1 == [] {
      assert |multiset(c2)| == 0;
    } else {
      var x := c1[|c1| - 1];
      var init := c1[..|c1| - 1];
      assert c1 == init + [x];
      assert x in multiset(c2);
      var p :| 0 <= p < |c2| && c2[p] == x;
      var before, after := c2[..p], c2[p + 1..];
      assert c2 == before + [x] + after;
      RemoveOne(init, x, before, after);
      GatherPermutation(init, before + after, pick);
      GatherAppend(init, [x], pick);
      GatherAppend(before + [x], after, pick);
      GatherAppend(before, [x], pick);
      GatherAppend(before, after, pick);
      GatherSingle(x, pick);
    }
  }

  /** A value is gathered exactly when some future contributes it. */
  lemma {:induction false} GatherMembers<A, T>(c: seq<A>, pick: A -> seq<T>, y: T)
    ensures y in Gather(c, pick) <==> exists k :: 0 <= k < |c| && y in pick(c[k])
  {
    if c != [] {
      var init := c[..|c| - 1];
      GatherMembers(init, pick, y);
      if y in Gather(init, pick) {
        var k :| 0 <= k < |init| && y in pick(init[k]);
        assert c[k] == init[k];
      }
      if exists k :: 0 <= k < |c| && y in pick(c[k]) {
        var k :| 0 <= k < |c| && y in pick(c[k]);
        if k < |c| - 1 {
          assert init[k] == c[k];
        }
      }
    }
  }

  /** Found records carry their ids, so `results` lists exactly the ids of the found futures. */
  lemma {:induction false} FoundRecordIds(c: seq<Dispatch>)
    requires RecordsCarryIds(c)
    ensures RecordIds(FoundRecords(c)) == Gather(c, FoundIdPick)
  {
    if c != [] {
      var init := c[..|c| - 1];
      FoundRecordIds(init);
      assert RecordIds(FoundRecords(init) + FoundPick(c[|c| - 1]))
          == RecordIds(FoundRecords(init)) + RecordIds(FoundPick(c[|c| - 1]));
    }
  }

  /** The ids of a non-empty list are the ids of all but its last future, then the last id. */
  lemma IdsSnoc(c: seq<Dispatch>)
    requires c != []
    ensures Ids(c) == Ids(c[..|c| - 1]) + [c[|c| - 1].id]
  {
  }

  /** Each future is one of found, not found and dropped. */
  lemma CountedOnce(x: Dispatch)
    ensures multiset(FoundIdPick(x)) + multiset(NotFoundPick(x)) + multiset(DroppedPick(x)) == multiset{x.id}
  {
  }

  /** Each future lands in exactly one of found, not found and dropped. */
  lemma {:induction false} PartitionCounts(c: seq<Dispatch>)
    ensures multiset(Gather(c, FoundIdPick)) + multiset(NotFoundIds(c)) + multiset(DroppedIds(c))
         == multiset(Ids(c))
  {
    if c != [] {
      var init := c[..|c| - 1];
      var x := c[|c| - 1];
      PartitionCounts(init);
      CountedOnce(x);
      IdsSnoc(c);
      var found, missing, dropped := multiset(Gather(init, FoundIdPick)), multiset(NotFoundIds(init)), multiset(DroppedIds(init));
      var f, m, r := multiset(FoundIdPick(x)), multiset(NotFoundPick(x)), multiset(DroppedPick(x));
      calc {
        multiset(Gather(c, FoundIdPick)) + multiset(NotFoundIds(c)) + multiset(DroppedIds(c));
        (found + f) + (missing + m) + (dropped + r);
        (found + missing + dropped) + (f + m + r);
        multiset(Ids(init)) + multiset{x.id};
        multiset(Ids(c));
      }
    }
  }

  /** The `as_completed` loop appends each outcome to at most one of `results` and `notfound`. */
  method Partition(d: seq<Dispatch>, order: seq<nat>) returns (results: seq<Record>, notfound: seq<int>)
    requires forall j :: 0 <= j < |order| ==> order[j] < |d|
    ensures results == FoundRecords(Completed(d, order))
    ensures notfound == NotFoundIds(Completed(d, order))
  {
    results, notfound := [], [];
    for j := 0 to |order|
      invariant results == FoundRecords(Completed(d, order[..j]))
      invariant notfound == NotFoundIds(Completed(d, order[..j]))
    {
      var x := d[order[j]];
      ghost var done := Completed(d, order[..j]);
      assert order[..j + 1][..j] == order[..j];
      assert Completed(d, order[..j + 1]) == done + [x];
      GatherAppend(done, [x], NotFoundPick);
      GatherAppend(done, [x], FoundPick);
      GatherSingle(x, NotFoundPick);
      GatherSingle(x, FoundPick);
      if x.outcome.NotFound? {
        notfound := notfound + [x.id];
      } else if x.outcome.Found? {
        results := results + [x.outcome.record];
      }
    }
    assert order[..|order|] == order;
  }

  /** `futures = {ex.submit(fetch_one, i): i for i in ids}`: one fetch per position, duplicates included. */
  method DispatchAll(ids: seq<int>, replies: seq<Reply>) returns (d: seq<Dispatch>)
    requires |replies| == |ids|
    ensures d == Dispatched(ids, replies)
  {
    d := [];
    for k := 0 to |ids|
      invariant d == Dispatched(ids[..k], replies[..k])
    {
      var o := FetchOne(ids[k], replies[k]);
      d := d + [Dispatch(ids[k], o)];
    }
    assert ids[..|ids|] == ids && replies[..|ids|] == replies;
  }

  lemma PermutationInRange(order: seq<nat>, n: nat)
    requires IsPermutation(order, n)
    ensures |order| == n
    ensures forall j :: 0 <= j < |order| ==> order[j] < n
  {
    assert |multiset(order)| == |multiset(Range(n))|;
    forall j | 0 <= j < |order|
      ensures order[j] < n
    {
      assert order[j] in multiset(Range(n));
    }
  }

  lemma {:induction false} CompletedInOrder(d: seq<Dispatch>, m: nat)
    requires m <= |d|
    ensures Completed(d, Range(m)) == d[..m]
  {
    if m > 0 {
      assert Range(m)[..m - 1] == Range(m - 1);
      CompletedInOrder(d, m - 1);
      assert d[..m] == d[..m - 1] + [d[m - 1]];
    }
  }

  /** Whatever the completion order, the futures completed are exactly the dispatched ones. */
  lemma CompletedIsPermutation(d: seq<Dispatch>, order: seq<nat>)
    requires IsPermutation(order, |d|)
    ensures forall j :: 0 <= j < |order| ==> order[j] < |d|
    ensures multiset(Completed(d, order)) == multiset(d)
  {
    PermutationInRange(order, |d|);
    GatherPermutation(order, Range(|d|), PickAt(d));
    CompletedInOrder(d, |d|);
    assert d[..|d|] == d;
  }

  /** Reordering the futures keeps every record paired with its own id. */
  lemma CarryIdsPermutation(c: seq<Dispatch>, d: seq<Dispatch>)
    requires multiset(c) == multiset(d) && RecordsCarryIds(d)
    ensures RecordsCarryIds(c)
  {
    forall k | 0 <= k < |c| && c[k].outcome.Found?
      ensures c[k].outcome.record.id == c[k].id
    {
      assert c[k] in multiset(d);
      var j :| 0 <= j < |d| && d[j] == c[k];
    }
  }

  /**
   * The report partitions the batch: every dispatched id is counted once in
   * `results`, in `notfound` or among the dropped ones, whatever the completion order.
   */
  lemma BatchPartition(ids: seq<int>, replies: seq<Reply>, order: seq<nat>)
    requires |replies| == |ids| && IsPermutation(order, |ids|)
    ensures var c := Completed(Dispatched(ids, replies), order);
      && multiset(RecordIds(FoundRecords(c))) + multiset(NotFoundIds(c)) + multiset(DroppedIds(c)) == multiset(ids)
      && |FoundRecords(c)| + |NotFoundIds(c)| <= |ids|
  {
    var d := Dispatched(ids, replies);
    CompletedIsPermutation(d, order);
    var c := Completed(d, order);
    CarryIdsPermutation(c, d);
    FoundRecordIds(c);
    PartitionCounts(c);
    PartitionCounts(d);
    GatherPermutation(c, d, FoundIdPick);
    GatherPermutation(c, d, NotFoundPick);
    GatherPermutation(c, d, DroppedPick);
    assert |multiset(Ids(c))| == |c|;
    assert |multiset(RecordIds(FoundRecords(c)))| == |FoundRecords(c)|;
  }

  lemma NotFoundInDispatchOrder(ids: seq<int>, replies: seq<Reply>, x: int)
    requires |replies| == |ids|
    ensures x in NotFoundIds(Dispatched(ids, replies)) <==>
      exists k :: 0 <= k < |ids| && ids[k] == x && replies[k].Response? && replies[k].status == NotFoundStatus
  {
    var d := Dispatched(ids, replies);
    GatherMembers(d, NotFoundPick, x);
    if exists k :: 0 <= k < |ids| && ids[k] == x && replies[k].Response? && replies[k].status == NotFoundStatus {
      var k :| 0 <= k < |ids| && ids[k] == x && replies[k].Response? && replies[k].status == NotFoundStatus;
      assert x in NotFoundPick(d[k]);
    }
  }

  lemma FoundInDispatchOrder(ids: seq<int>, replies: seq<Reply>, x: int)
    requires |replies| == |ids|
    ensures x in Gather(Dispatched(ids, replies), FoundIdPick) <==>
      exists k :: 0 <= k < |ids| && ids[k] == x && FetchOutcome(x, replies[k]).Found?
  {
    var d := Dispatched(ids, replies);
    GatherMembers(d, FoundIdPick, x);
    if exists k :: 0 <= k < |ids| && ids[k] == x && FetchOutcome(x, replies[k]).Found? {
      var k :| 0 <= k < |ids| && ids[k] == x && FetchOutcome(x, replies[k]).Found?;
      assert x in FoundIdPick(d[k]);
    }
  }

  /** `notfound` holds exactly the ids whose page answered 404. */
  lemma NotFoundExactly(ids: seq<int>, replies: seq<Reply>, order: seq<nat>, x: int)
    requires |replies| == |ids| && IsPermutation(order, |ids|)
    ensures x in NotFoundIds(Completed(Dispatched(ids, replies), order)) <==>
      exists k :: 0 <= k < |ids| && ids[k] == x && replies[k].Response? && replies[k].status == NotFoundStatus
  {
    var d := Dispatched(ids, replies);
    CompletedIsPermutation(d, order);
    var c := Completed(d, order);
    GatherPermutation(c, d, NotFoundPick);
    assert x in NotFoundIds(c) <==> x in multiset(NotFoundIds(d));
    NotFoundInDispatchOrder(ids, replies, x);
  }

  /** `results` holds a record for an id exactly when one of its fetches found the page. */
  lemma ResultsExactly(ids: seq<int>, replies: seq<Reply>, order: seq<nat>, x: int)
    requires |replies| == |ids| && IsPermutation(order, |ids|)
    ensures x in RecordIds(FoundRecords(Completed(Dispatched(ids, replies), order))) <==>
      exists k :: 0 <= k < |ids| && ids[k] == x && FetchOutcome(x, replies[k]).Found?
  {
    var d := Dispatched(ids, replies);
    CompletedIsPermutation(d, order);
    var c := Completed(d, order);
    CarryIdsPermutation(c, d);
    FoundRecordIds(c);
    GatherPermutation(c, d, FoundIdPick);
    assert x in RecordIds(FoundRecords(c)) <==> x in multiset(Gather(d, FoundIdPick));
    FoundInDispatchOrder(ids, replies, x);
  }

  /** An id every one of whose fetches was dropped is reported in neither list. */
  lemma DroppedReportedNowhere(ids: seq<int>, replies: seq<Reply>, order: seq<nat>, x: int)
    requires |replies| == |ids| && IsPermutation(order, |ids|)
    requires forall k :: 0 <= k < |ids| && ids[k] == x ==> FetchOutcome(x, replies[k]).Dropped?
    ensures var c := Completed(Dispatched(ids, replies), order);
      x !in NotFoundIds(c) && x !in RecordIds(FoundRecords(c))
  {
    NotFoundExactly(ids, replies, order, x);
    ResultsExactly(ids, replies, order, x);
  }

  /** The two lists do not depend on the completion order beyond the order of their elements. */
  lemma OrderIndependent(d: seq<Dispatch>, o1: seq<nat>, o2: seq<nat>)
    requires IsPermutation(o1, |d|) && IsPermutation(o2, |d|)
    ensures multiset(FoundRecords(Completed(d, o1))) == multiset(FoundRecords(Completed(d, o2)))
    ensures multiset(NotFoundIds(Completed(d, o1))) == multiset(NotFoundIds(Completed(d, o2)))
  {
    CompletedIsPermutation(d, o1);
    CompletedIsPermutation(d, o2);
    GatherPermutation(Completed(d, o1), Completed(d, o2), FoundPick);
    GatherPermutation(Completed(d, o1), Completed(d, o2), NotFoundPick);
  }
}
