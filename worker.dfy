/**
 * One iteration of `main`'s `while True` loop, a two-state machine:
 * in AwaitingWork the worker polls for a batch and either backs off or
 * moves to Processing; in Processing it fetches the whole batch, partitions
 * the outcomes, submits the report once and returns to AwaitingWork.
 */
module Worker {
  import opened Wrappers
  import opened Fetch
  import opened Batch

  /** Seconds slept before polling again, after a bad or an empty answer. */
  const PollBackoff := 5

  /**
   * The `ids` value as `main` tests it: absent (the default `[]`), a falsy
   * value that is not a list (null, 0, false, "", {}), a list of ids, or a
   * truthy value that has no length (a non-zero number, true).
   */
  datatype IdsField = Absent | Falsy | List(batch: seq<int>) | Unsized

  /** The `/get_work` answer: a body that does not decode to an object with `get`, or the `ids` it holds. */
  datatype WorkReply = Undecodable | Decoded(ids: IdsField)

  datatype Phase = AwaitingWork | Processing(batch: seq<int>)

  /** The report posted to `/submit_work`. */
  datatype Report = Report(submissions: seq<Record>, notfound: seq<int>)

  /** What one iteration ends with: a backoff sleep, or exactly one submission. */
  datatype Action = Sleep(seconds: nat) | Submit(report: Report)

  /**
   * The AwaitingWork transition as `main` is written: `not ids` sends every
   * falsy value to the backoff, and `len(ids)`, outside any `try`, raises
   * `TypeError` on a truthy value without a length (`None` here: the
   * exception leaves `main` and the worker stops).
   */
  function PollAsWritten(work: WorkReply): (next: Option<Phase>)
    ensures next.None? <==> work == Decoded(Unsized)
    ensures next.Some? && next.value.Processing? ==> work == Decoded(List(next.value.batch))
  {
    match work
    case Undecodable => Some(AwaitingWork)
    case Decoded(Absent) => Some(AwaitingWork)
    case Decoded(Falsy) => Some(AwaitingWork)
    case Decoded(List(batch)) => if batch == [] then Some(AwaitingWork) else Some(Processing(batch))
    case Decoded(Unsized) => None
  }

  /** An answer `{"ids": 5}` passes `not ids` and stops the worker at `len(ids)`. */
  lemma UnsizedIdsStopWorker()
    ensures PollAsWritten(Decoded(Unsized)) == None
  {
  }

  /**
   * The AwaitingWork transition with an unusable `ids` value treated like an
   * undecodable body: only a decoded, non-empty list of ids starts processing,
   * and every other answer backs off.
   */
  function Poll(work: WorkReply): (next: Phase)
    ensures next.AwaitingWork? <==> !(work.Decoded? && work.ids.List? && work.ids.batch != [])
    ensures next.Processing? ==> work == Decoded(List(next.batch)) && next.batch != []
  {
    match work
    case Decoded(List(batch)) => if batch == [] then AwaitingWork else Processing(batch)
    case _ => AwaitingWork
  }

  /** The corrected transition agrees with `main` on every answer that does not stop it. */
  lemma PollAgreesWhereWorkerSurvives(work: WorkReply)
    ensures PollAsWritten(work).Some? ==> PollAsWritten(work).value == Poll(work)
    ensures PollAsWritten(work).None? ==> Poll(work) == AwaitingWork
  {
  }

  /**
   * One poll step. `replies[k]` is what the GET for the k-th id of the batch
   * returns, and `order` is the order in which `as_completed` yields the
   * futures, some permutation of their positions.
   */
  method Step(work: WorkReply, replies: seq<Reply>, order: seq<nat>) returns (act: Action, fetched: seq<Dispatch>)
    requires Poll(work).Processing? ==> |replies| == |Poll(work).batch| && IsPermutation(order, |replies|)
    ensures act.Sleep? <==> Poll(work).AwaitingWork?
    ensures act.Sleep? ==> act.seconds == PollBackoff && fetched == []
    ensures act.Submit? ==> fetched == Dispatched(Poll(work).batch, replies)
    ensures act.Submit? ==>
      var ids := Poll(work).batch;
      var c := Completed(Dispatched(ids, replies), order);
      act.report == Report(FoundRecords(c), NotFoundIds(c))
    ensures act.Submit? ==>
      var ids := Poll(work).batch;
      var c := Completed(Dispatched(ids, replies), order);
      && multiset(RecordIds(act.report.submissions)) + multiset(act.report.notfound) + multiset(DroppedIds(c))
         == multiset(ids)
      && |act.report.submissions| + |act.report.notfound| <= |ids|
    ensures act.Submit? ==>
      var ids := Poll(work).batch;
      forall x :: x in act.report.notfound <==>
        exists k :: 0 <= k < |ids| && ids[k] == x && replies[k].Response? && replies[k].status == NotFoundStatus
  {
    var next := Poll(work);
    if next.AwaitingWork? {
      return Sleep(PollBackoff), [];
    }
    var ids := next.batch;
    fetched := DispatchAll(ids, replies);
    PermutationInRange(order, |ids|);
    var results, notfound := Partition(fetched, order);
    act := Submit(Report(results, notfound));
    BatchPartition(ids, replies, order);
    forall x | true
      ensures x in notfound <==>
        exists k :: 0 <= k < |ids| && ids[k] == x && replies[k].Response? && replies[k].status == NotFoundStatus
    {
      NotFoundExactly(ids, replies, order, x);
    }
  }
}
