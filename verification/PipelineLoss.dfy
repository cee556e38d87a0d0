/**
 How a ready video is lost.  Over every run from the empty system its row leaves `ready`
 exactly when a `failed` request commits, sent by the reconciler or by a handler one of whose
 calls had failed where no retry was left.
 */
module PipelineLoss {
  import opened Common
  import opened VideoTable
  import opened Ladder
  import opened Pipeline
  import opened PipelineStore
  import opened PipelineMessages

  // ----- runs, position by position -----

  /** Every run has its sequence of states. */
  lemma {:induction false} RunIsATrace(s: State, acts: seq<Action>, t: State) returns (states: seq<State>)
    requires Run(s, acts, t)
    ensures Trace(states, acts) && states[0] == s && states[|acts|] == t
    decreases acts
  {
    if acts == [] {
      states := [s];
    } else {
      var rest := RunIsATrace(Apply(s, acts[0]), acts[1..], t);
      states := [s] + rest;
      forall i | 0 <= i < |acts| ensures Enabled(states[i], acts[i]) && states[i + 1] == Apply(states[i], acts[i]) {
        assert i > 0 ==> acts[i] == acts[1..][i - 1] && states[i] == rest[i - 1] && states[i + 1] == rest[i];
      }
    }
  }

  lemma {:induction false} InvAlong(states: seq<State>, acts: seq<Action>, j: nat)
    requires Trace(states, acts) && Reachable(states[0]) && j <= |acts|
    ensures StoreInv(states[j]) && MessageInv(states[j])
  {
    if j == 0 {
      ReachableMessages(states[0]);
    } else {
      InvAlong(states, acts, j - 1);
      StepKeepsMessages(states[j - 1], acts[j - 1]);
      StepKeeps(states[j - 1], acts[j - 1]);
    }
  }

  lemma EmptyIsReachable()
    ensures Reachable(EMPTY)
  {
    assert Run(EMPTY, [], EMPTY);
  }

  // ----- losing ready -----

  predicate IsReady(s: State, v: VideoId) {
    v in s.store.table.status && s.store.table.status[v] == Ready
  }

  predicate IsFailed(s: State, v: VideoId) {
    v in s.store.table.status && s.store.table.status[v] == VideoTable.Failed
  }

  /** A request that sets v to failed, committed or not. */
  predicate FailureRequest(n: Net, r: RequestId, v: VideoId) {
    r in n.requests && n.requests[r].video == v && n.requests[r].status == VideoTable.Failed
  }

  predicate FailureCommits(s: State, a: Action, v: VideoId) {
    a.Commit? && FailureRequest(s.net, a.r, v)
  }

  /** The job of w is a delivery about v. */
  predicate Handles(s: State, w: WorkerId, v: VideoId) {
    HasJob(s, w) && Mentioned(JobOf(s, w).body) == Some(v)
  }

  predicate SendsFailed(s: State, a: Action, w: WorkerId, v: VideoId) {
    a == PatchFailed(w) && Handles(s, w, v)
  }

  /** A step takes the ready row away only as its owner's delete, and out of ready only as the commit of a failure. */
  lemma ReadyStays(s: State, a: Action, v: VideoId)
    requires StoreInv(s) && Enabled(s, a) && IsReady(s, v)
    ensures v !in Apply(s, a).store.table.status <==> a.DeleteRow? && s.deletions[a.d].video == v
    ensures v in Apply(s, a).store.table.status ==>
              if FailureCommits(s, a, v) then IsFailed(Apply(s, a), v) else IsReady(Apply(s, a), v)
  {
    hide HistoryOk, NetOk, DeletionsOk, JobsOk;
    if OwnerEnabled(s, a) {
      if a.Commit? {
        var q := s.net.requests[a.r];
        UpdateTouchesOneVideo(s.store.table, q.video, q.status, q.renditions);
      }
    } else if WorkEnabled(s, a) && !BrokerEnabled(s, a) {
      WorkLeavesTheTables(s, a);
    } else {
      QueueStepsLeaveTheStore(s, a);
    }
  }

  /** Requests are numbered in the order they are sent, and a step sends a failure of v in two ways. */
  lemma FailuresSent(s: State, a: Action, r: RequestId, v: VideoId)
    requires NetOk(s.store, s.net) && Enabled(s, a)
    ensures FailureRequest(Apply(s, a).net, r, v) <==>
              FailureRequest(s.net, r, v)
              || (r == s.net.next && (a == ReconcilerFails(v) || (a.PatchFailed? && SendsFailed(s, a, a.w, v))))
  {
    if OwnerEnabled(s, a) {
      FailuresInOwner(s, a, r, v);
    } else if BrokerEnabled(s, a) {
      assert ApplyBroker(s, a).net == s.net;
    } else if WorkEnabled(s, a) {
      FailuresInWork(s, a, r, v);
    } else {
      FailuresInSettle(s, a, r, v);
    }
  }

  lemma FailuresInOwner(s: State, a: Action, r: RequestId, v: VideoId)
    requires NetOk(s.store, s.net) && OwnerEnabled(s, a)
    ensures FailureRequest(ApplyOwner(s, a).net, r, v) <==>
              FailureRequest(s.net, r, v) || (r == s.net.next && a == ReconcilerFails(v))
  {
  }

  lemma FailuresInWork(s: State, a: Action, r: RequestId, v: VideoId)
    requires NetOk(s.store, s.net) && WorkEnabled(s, a)
    ensures FailureRequest(ApplyWork(s, a).net, r, v) <==> FailureRequest(s.net, r, v)
  {
  }

  lemma FailuresInSettle(s: State, a: Action, r: RequestId, v: VideoId)
    requires NetOk(s.store, s.net) && SettleEnabled(s, a)
    ensures FailureRequest(ApplySettle(s, a).net, r, v) <==>
              FailureRequest(s.net, r, v) || (r == s.net.next && a.PatchFailed? && SendsFailed(s, a, a.w, v))
  {
  }

  // ----- when a failure is due -----

  /** The failed update is due at w: its handler can do nothing else but crash. */
  predicate Due(s: State, w: WorkerId, v: VideoId) {
    Handles(s, w, v) && (JobOf(s, w).pc.Failing? || (JobOf(s, w).pc == Raised && JobOf(s, w).count >= MAX_RETRIES))
  }

  /** The call a session makes in this step raises, or its ready update is not seen to succeed. */
  predicate Raises(a: Action) {
    match a
    case RaiseInWork(_) => true
    case PutRendition(_, raises) => raises
    case ReadyAnswer(_, ok) => !ok
    case Ack(_, call) => call.raises
    case Republish(_, call) => call.raises
    case AckOriginal(_, call) => call.raises
    case _ => false
  }

  /** The republish and ack of an attempt that failed already: here no retry is left, whatever the count. */
  predicate Retrying(a: Action) {
    a.Republish? || a.AckOriginal?
  }

  /**
   A call of v's delivery at w fails where no retry is left: an AMQP call, a step of the work, or
   the ready update, which may have committed although its reply was lost.
   */
  predicate Doomed(s: State, a: Action, w: WorkerId, v: VideoId) {
    && Handles(s, w, v) && Raises(a) && a.w == w
    && (Retrying(a) || JobOf(s, w).count >= MAX_RETRIES)
  }

  /** A failure becomes due by such a call and in no other way. */
  lemma DueComesFrom(s: State, v: VideoId, a: Action, w: WorkerId)
    requires Enabled(s, a)
    ensures Due(Apply(s, a), w, v) <==> (Due(s, w, v) && a != PatchFailed(w) && a != Crash(w)) || Doomed(s, a, w, v)
    ensures Due(s, w, v) && Due(Apply(s, a), w, v) ==> JobOf(Apply(s, a), w) == JobOf(s, w) && !Doomed(s, a, w, v)
  {
    if OwnerEnabled(s, a) {
      assert ApplyOwner(s, a).workers == s.workers;
    } else if BrokerEnabled(s, a) {
      DueInBroker(s, v, a, w);
    } else if WorkEnabled(s, a) {
      DueInWork(s, v, a, w);
    } else {
      DueInSettle(s, v, a, w);
    }
  }

  lemma DueInBroker(s: State, v: VideoId, a: Action, w: WorkerId)
    requires BrokerEnabled(s, a)
    ensures Due(ApplyBroker(s, a), w, v) <==> Due(s, w, v) && a != Crash(w)
    ensures Due(ApplyBroker(s, a), w, v) ==> JobOf(ApplyBroker(s, a), w) == JobOf(s, w)
  {
  }

  lemma DueInWork(s: State, v: VideoId, a: Action, w: WorkerId)
    requires WorkEnabled(s, a)
    ensures Due(ApplyWork(s, a), w, v) <==> Due(s, w, v) || Doomed(s, a, w, v)
    ensures Due(s, w, v) ==> JobOf(ApplyWork(s, a), w) == JobOf(s, w) && !Doomed(s, a, w, v)
  {
  }

  lemma DueInSettle(s: State, v: VideoId, a: Action, w: WorkerId)
    requires SettleEnabled(s, a)
    ensures Due(ApplySettle(s, a), w, v) <==> (Due(s, w, v) && a != PatchFailed(w)) || Doomed(s, a, w, v)
    ensures Due(s, w, v) && Due(ApplySettle(s, a), w, v) ==> JobOf(ApplySettle(s, a), w) == JobOf(s, w) && !Doomed(s, a, w, v)
  {
  }

  lemma SendingIsDue(s: State, a: Action, w: WorkerId, v: VideoId)
    requires Enabled(s, a) && SendsFailed(s, a, w, v)
    ensures Due(s, w, v)
  {
  }

  // ----- over a run -----

  /** w's failure, due at j, became due at i, with the same delivery in hand ever since. */
  ghost predicate DoomedAt(states: seq<State>, acts: seq<Action>, v: VideoId, w: WorkerId, i: int, j: int)
    requires |states| == |acts| + 1 && j <= |acts|
  {
    && 0 <= i < j && Doomed(states[i], acts[i], w, v)
    && Handles(states[j], w, v)
    && forall k :: i < k <= j ==> HasJob(states[k], w) && JobOf(states[k], w) == JobOf(states[j], w)
  }

  lemma {:induction false} DueWasDoomed(states: seq<State>, acts: seq<Action>, v: VideoId, w: WorkerId, j: nat)
    requires Trace(states, acts) && j <= |acts| && Due(states[j], w, v) && !Due(states[0], w, v)
    ensures exists i :: DoomedAt(states, acts, v, w, i, j)
  {
    hide Enabled, Apply;
    DueComesFrom(states[j - 1], v, acts[j - 1], w);
    if Doomed(states[j - 1], acts[j - 1], w, v) {
      assert DoomedAt(states, acts, v, w, j - 1, j);
    } else {
      DueWasDoomed(states, acts, v, w, j - 1);
      var i :| DoomedAt(states, acts, v, w, i, j - 1);
      assert DoomedAt(states, acts, v, w, i, j);
    }
  }

  /** Between the two positions w neither sends its failed update nor crashes. */
  predicate Untouched(acts: seq<Action>, w: WorkerId, i: int, j: int)
    requires 0 <= i < j <= |acts|
  {
    forall k :: i < k < j ==> acts[k] != PatchFailed(w) && acts[k] != Crash(w)
  }

  lemma {:induction false} DoomedStaysDue(states: seq<State>, acts: seq<Action>, v: VideoId, w: WorkerId, i: nat, j: nat)
    requires Trace(states, acts) && i < j <= |acts| && Doomed(states[i], acts[i], w, v) && Untouched(acts, w, i, j)
    ensures Due(states[j], w, v)
    decreases j
  {
    hide Enabled, Apply, Due, Doomed;
    DueComesFrom(states[j - 1], v, acts[j - 1], w);
    if i + 1 < j {
      DoomedStaysDue(states, acts, v, w, i, j - 1);
    }
  }

  /** At position i a failure of v is sent: by the reconciler, or by a handler since a call of the same delivery failed without a retry left. */
  ghost predicate FailureSent(states: seq<State>, acts: seq<Action>, v: VideoId, i: int)
    requires |states| == |acts| + 1 && 0 <= i < |acts|
  {
    || acts[i] == ReconcilerFails(v)
    || exists w, d :: acts[i] == PatchFailed(w) && DoomedAt(states, acts, v, w, d, i)
  }

  lemma SentExactly(states: seq<State>, acts: seq<Action>, v: VideoId, i: nat)
    requires Trace(states, acts) && states[0] == EMPTY && i < |acts|
    ensures FailureSent(states, acts, v, i) <==>
              acts[i] == ReconcilerFails(v) || (acts[i].PatchFailed? && SendsFailed(states[i], acts[i], acts[i].w, v))
  {
    if acts[i].PatchFailed? && SendsFailed(states[i], acts[i], acts[i].w, v) {
      SendingIsDue(states[i], acts[i], acts[i].w, v);
      DueWasDoomed(states, acts, v, acts[i].w, i);
    }
  }

  /** The failures of v ever sent by position j, each with the number it was given. */
  lemma {:induction false} FailuresOf(states: seq<State>, acts: seq<Action>, v: VideoId, r: RequestId, j: nat)
    requires Trace(states, acts) && states[0] == EMPTY && j <= |acts|
    ensures FailureRequest(states[j].net, r, v) <==>
              exists i :: 0 <= i < j && FailureSent(states, acts, v, i) && states[i].net.next == r
  {
    hide Enabled, Apply, MessageInv, TableOk, HistoryOk, NetOk, DeletionsOk, JobsOk, FailureSent, SendsFailed;
    if j > 0 {
      EmptyIsReachable();
      InvAlong(states, acts, j - 1);
      FailuresOf(states, acts, v, r, j - 1);
      FailuresSent(states[j - 1], acts[j - 1], r, v);
      SentExactly(states, acts, v, j - 1);
    }
  }

  /** At position j a failure of v commits that was sent earlier in the run. */
  ghost predicate SentFailureCommits(states: seq<State>, acts: seq<Action>, v: VideoId, j: int)
    requires |states| == |acts| + 1 && 0 <= j < |acts|
  {
    exists i :: 0 <= i < j && FailureSent(states, acts, v, i) && acts[j] == Commit(states[i].net.next)
  }

  // ----- main results -----

  /**
   When a ready row is lost, over every run of the whole system.  A step takes it out of
   `ready` exactly if it is the commit of a failure sent earlier in the run, and then it is
   `failed`; otherwise it stays `ready` unless its owner's delete removes it.  And a call that
   fails where no retry is left always makes that failure due, until it is sent or the process
   dies.
   */
  lemma ReadyIsLostExactly(states: seq<State>, acts: seq<Action>, v: VideoId)
    requires Trace(states, acts) && states[0] == EMPTY
    ensures forall j :: 0 <= j < |acts| && IsReady(states[j], v) ==>
              if acts[j].DeleteRow? && states[j].deletions[acts[j].d].video == v then v !in states[j + 1].store.table.status
              else if SentFailureCommits(states, acts, v, j) then IsFailed(states[j + 1], v)
              else IsReady(states[j + 1], v)
    ensures forall i, j, w :: 0 <= i < j <= |acts| && Doomed(states[i], acts[i], w, v) && Untouched(acts, w, i, j) ==>
              Due(states[j], w, v)
  {
    forall j | 0 <= j < |acts| && IsReady(states[j], v)
      ensures if acts[j].DeleteRow? && states[j].deletions[acts[j].d].video == v then v !in states[j + 1].store.table.status
              else if SentFailureCommits(states, acts, v, j) then IsFailed(states[j + 1], v)
              else IsReady(states[j + 1], v)
    {
      EmptyIsReachable();
      InvAlong(states, acts, j);
      ReadyStays(states[j], acts[j], v);
      if acts[j].Commit? {
        FailuresOf(states, acts, v, acts[j].r, j);
      }
    }
    forall i, j, w | 0 <= i < j <= |acts| && Doomed(states[i], acts[i], w, v) && Untouched(acts, w, i, j)
      ensures Due(states[j], w, v)
    {
      DoomedStaysDue(states, acts, v, w, i, j);
    }
  }

  /** So each such call is enough: from any state in which v is ready, three steps from the call v is failed. */
  lemma DoomedMayFail(s: State, a: Action, w: WorkerId, v: VideoId) returns (t: State)
    requires IsReady(s, v) && Enabled(s, a) && Doomed(s, a, w, v)
    ensures Run(s, [a, PatchFailed(w), Commit(s.net.next)], t) && IsFailed(t, v)
  {
    var s1 := Apply(s, a);
    DueComesFrom(s, v, a, w);
    DoomedLeavesTheTable(s, a, w, v);
    var s2 := Apply(s1, PatchFailed(w));
    t := Apply(s2, Commit(s.net.next));
    UpdateTouchesOneVideo(s2.store.table, v, VideoTable.Failed, []);
    ThreeSteps(s, a, PatchFailed(w), Commit(s.net.next));
  }

  lemma DoomedLeavesTheTable(s: State, a: Action, w: WorkerId, v: VideoId)
    requires Enabled(s, a) && Doomed(s, a, w, v)
    ensures Apply(s, a).store.table == s.store.table && Apply(s, a).net == s.net
  {
  }

  lemma ThreeSteps(s: State, a: Action, b: Action, c: Action)
    requires Enabled(s, a) && Enabled(Apply(s, a), b) && Enabled(Apply(Apply(s, a), b), c)
    ensures Run(s, [a, b, c], Apply(Apply(Apply(s, a), b), c))
  {
    var u := Apply(Apply(s, a), b);
    assert [c][1..] == [] && Run(Apply(u, c), [], Apply(u, c));
    assert [b, c][1..] == [c] && Run(u, [c], Apply(u, c));
    assert [a, b, c][1..] == [b, c];
  }

  /** An AMQP call that raises without having reached the broker. */
  const LOST := Call(false, true)

  /** From every state with a returned delivery of a ready video, its ack and then its republish may raise, and ready is overwritten. */
  lemma ReturnedDeliveryMayFail(s: State, w: WorkerId, v: VideoId) returns (acts: seq<Action>, t: State)
    requires At(s, w, Returned) && JobOf(s, w).body == Event(v) && IsReady(s, v)
    ensures Run(s, acts, t) && IsFailed(t, v)
  {
    if JobOf(s, w).count >= MAX_RETRIES {
      acts := [Ack(w, LOST), PatchFailed(w), Commit(s.net.next)];
      t := DoomedMayFail(s, Ack(w, LOST), w, v);
    } else {
      var u := Apply(s, Ack(w, LOST));
      t := DoomedMayFail(u, Republish(w, LOST), w, v);
      acts := [Ack(w, LOST)] + [Republish(w, LOST), PatchFailed(w), Commit(u.net.next)];
      assert acts[1..] == [Republish(w, LOST), PatchFailed(w), Commit(u.net.next)];
    }
  }

  // ----- a run that loses a ready video without any AMQP call raising -----

  predicate AmqpRaises(a: Action) {
    (a.Ack? || a.Republish? || a.AckOriginal? || a.Nack?) && a.call.raises
  }

  /** Reached by a run in which every AMQP call is answered. */
  ghost predicate Calmly(s: State) {
    exists acts :: Run(EMPTY, acts, s) && forall i :: 0 <= i < |acts| ==> !AmqpRaises(acts[i])
  }

  lemma CalmlyOn(s: State, a: Action)
    requires Calmly(s) && Enabled(s, a) && !AmqpRaises(a)
    ensures Calmly(Apply(s, a))
  {
    var acts :| Run(EMPTY, acts, s) && forall i :: 0 <= i < |acts| ==> !AmqpRaises(acts[i]);
    assert [a][1..] == [] && Run(Apply(s, a), [], Apply(s, a));
    RunConcat(EMPTY, acts, s, [a], Apply(s, a));
    assert forall i :: 0 <= i < |acts + [a]| ==> !AmqpRaises((acts + [a])[i]);
  }

  /** One video, its raw object, one session, and progress requests that may still commit. */
  ghost predicate OneVideo(s: State) {
    && Calmly(s) && s.deletions == map[] && s.workers.Keys == {0} && s.workers[0].connected
    && s.store.table == Table(map[0 := Uploaded], map[]) && Raw(0) in s.store.bucket
    && (forall r: RequestId :: r in s.net.requests <==> r < s.net.next)
    && (forall r :: r in s.net.requests ==> s.net.requests[r] == Request(0, Processing, [], false))
  }

  /** Its event waits in the main queue after c failed attempts. */
  ghost predicate Waiting(s: State, c: nat) {
    && OneVideo(s) && s.workers[0].job == None
    && s.broker.next == c + 1 && s.broker.msgs == map[c := Message(0, Event(0), c, MainQueue)]
  }

  /** The session is at pc with it. */
  ghost predicate Working(s: State, c: nat, pc: Pc) {
    && OneVideo(s) && s.workers[0].job == Some(Job(c, 0, Event(0), c, pc)) && (pc == Start || 0 < s.net.next)
    && s.broker.next == c + 1 && s.broker.msgs == map[c := Message(0, Event(0), c, Unacked(0, false))]
  }

  lemma Uploads() returns (s: State)
    ensures Waiting(s, 0)
  {
    assert Run(EMPTY, [], EMPTY);
    CalmlyOn(EMPTY, CreateVideo(0));
    var t := Apply(EMPTY, CreateVideo(0));
    CalmlyOn(t, PutRaw(0));
    var u := Apply(t, PutRaw(0));
    CalmlyOn(u, Publish(0, Event(0)));
    var x := Apply(u, Publish(0, Event(0)));
    CalmlyOn(x, Connect(0));
    s := Apply(x, Connect(0));
  }

  lemma Delivers(s: State, c: nat) returns (t: State)
    requires Waiting(s, c)
    ensures Working(t, c, Start)
  {
    CalmlyOn(s, Deliver(0, c));
    t := Apply(s, Deliver(0, c));
  }

  lemma Starts(s: State, c: nat) returns (t: State)
    requires Working(s, c, Start)
    ensures Working(t, c, Fetching)
  {
    hide Calmly;
    CalmlyOn(s, ReadStatus(0, true));
    var u := Apply(s, ReadStatus(0, true));
    CalmlyOn(u, PatchProcessing(0));
    t := Apply(u, PatchProcessing(0));
  }

  const ANSWERED := Call(true, false)

  /** Both copies of a retried event are there until the original is acknowledged. */
  ghost predicate Republishing(s: State, c: nat) {
    && OneVideo(s) && s.workers[0].job == Some(Job(c, 0, Event(0), c, Republished)) && s.broker.next == c + 2
    && s.broker.msgs == map[c := Message(0, Event(0), c, Unacked(0, true)), c + 1 := Message(0, Event(0), c + 1, RetryQueue)]
  }

  /** The work raises, and the event is retried. */
  lemma Fails(s: State, c: nat) returns (t: State)
    requires Working(s, c, Fetching) && c < MAX_RETRIES
    ensures Republishing(t, c)
  {
    hide Calmly;
    CalmlyOn(s, RaiseInWork(0));
    var u := Apply(s, RaiseInWork(0));
    CalmlyOn(u, Republish(0, ANSWERED));
    t := Apply(u, Republish(0, ANSWERED));
  }

  lemma Retries(s: State, c: nat) returns (t: State)
    requires Republishing(s, c)
    ensures Waiting(t, c + 1)
  {
    hide Calmly;
    CalmlyOn(s, AckOriginal(0, ANSWERED));
    var u := Apply(s, AckOriginal(0, ANSWERED));
    CalmlyOn(u, ExpireTtl(c + 1));
    t := Apply(u, ExpireTtl(c + 1));
  }

  /** The work goes through. */
  lemma Encodes(s: State, c: nat) returns (t: State)
    requires Working(s, c, Fetching)
    ensures Working(t, c, Announcing([Entry(0, P360)]))
  {
    hide Calmly;
    OneRung();
    hide LadderFor;
    CalmlyOn(s, Fetch(0, Some(400)));
    var u := Apply(s, Fetch(0, Some(400)));
    CalmlyOn(u, PutRendition(0, false));
    t := Apply(u, PutRendition(0, false));
  }

  lemma OneRung()
    ensures LadderFor(0, Some(400)) == [Entry(0, P360)]
  {
    assert Ordered([P360]) == [P360];
  }

  /** The ready update has committed; its answer is awaited, and progress requests are still pending. */
  ghost predicate Announced(s: State, c: nat) {
    && Calmly(s) && s.deletions == map[] && s.workers.Keys == {0} && IsReady(s, 0)
    && s.workers[0].job.Some? && s.workers[0].job.value.body == Event(0) && s.workers[0].job.value.count == c
    && s.workers[0].job.value.pc.AwaitingReady?
    && var ready := s.workers[0].job.value.pc.request;
       && 0 < ready && 0 in s.net.requests && ready in s.net.requests && s.net.requests[ready].committed
       && forall r :: r in s.net.requests && r != ready ==> s.net.requests[r] == Request(0, Processing, [], false)
  }

  lemma Announces(s: State, c: nat) returns (t: State)
    requires Working(s, c, Announcing([Entry(0, P360)]))
    ensures Announced(t, c)
  {
    CalmlyOn(s, PatchReady(0));
    var r := s.net.next;
    var u := Apply(s, PatchReady(0));
    CalmlyOn(u, Commit(r));
    t := Apply(u, Commit(r));
  }

  /** For every number of retries: a run after which the ready update of that attempt has committed. */
  lemma ReadyIsReached(c: nat) returns (s: State)
    requires c <= MAX_RETRIES
    ensures Announced(s, c)
  {
    s := AttemptBegins(c);
    s := Encodes(s, c);
    s := Announces(s, c);
  }

  lemma {:induction false} AttemptBegins(c: nat) returns (s: State)
    requires c <= MAX_RETRIES
    ensures Working(s, c, Fetching)
  {
    if c == 0 {
      s := Uploads();
    } else {
      s := AttemptBegins(c - 1);
      s := Fails(s, c - 1);
      s := Retries(s, c - 1);
    }
    s := Delivers(s, c);
    s := Starts(s, c);
  }

  /**
   So ready is not final, even if every AMQP call is answered: when the reply to the ready
   update of the last attempt is lost, the update has committed and the handler still sends
   `failed`.
   */
  lemma LostReplyOverwritesReady() returns (s: State, acts: seq<Action>, t: State)
    ensures Calmly(s) && IsReady(s, 0)
    ensures Run(s, acts, t) && IsFailed(t, 0) && forall i :: 0 <= i < |acts| ==> !AmqpRaises(acts[i])
  {
    s := ReadyIsReached(MAX_RETRIES);
    acts := [ReadyAnswer(0, false), PatchFailed(0), Commit(s.net.next)];
    t := DoomedMayFail(s, ReadyAnswer(0, false), 0, 0);
  }

  lemma Returns(s: State) returns (t: State)
    requires Announced(s, 0)
    ensures Calmly(t) && IsReady(t, 0) && At(t, 0, Returned) && JobOf(t, 0).body == Event(0)
  {
    hide Calmly;
    CalmlyOn(s, ReadyAnswer(0, true));
    var u := Apply(s, ReadyAnswer(0, true));
    CalmlyOn(u, CleanRaw(0, true, false));
    t := Apply(u, CleanRaw(0, true, false));
  }

  /** Nor on the first attempt: its ack and its republish may raise. */
  lemma ReadyIsNotFinal() returns (before: seq<Action>, s: State, after: seq<Action>, t: State)
    ensures Run(EMPTY, before, s) && IsReady(s, 0)
    ensures Run(s, after, t) && IsFailed(t, 0)
  {
    s := ReadyIsReached(0);
    s := Returns(s);
    before :| Run(EMPTY, before, s);
    after, t := ReturnedDeliveryMayFail(s, 0, 0);
  }
}
