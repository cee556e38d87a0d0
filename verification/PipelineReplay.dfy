/**
 Replaying the event of a ready video.  Redeliveries, retries, retry copies and republishes
 change nothing about it, and updates of earlier attempts that commit late are suppressed, as
 long as no call of its deliveries fails where no retry is left.
 */
module PipelineReplay {
  import opened Common
  import opened VideoTable
  import opened Pipeline
  import opened PipelineStore
  import opened PipelineMessages
  import opened PipelineLoss

  // ----- a video nobody works on any more -----

  /**
   Where a delivery of a finished video may stand: before its status read, with its own ready
   update committed, returned, or settling its message.
   */
  ghost predicate SettledPc(n: Net, pc: Pc) {
    match pc
    case AwaitingReady(r) => r in n.requests && n.requests[r].committed
    case _ => pc == Start || pc == Cleaning || pc == Returned || pc == Raised || pc == Republished || pc.Failing? || pc.Rejecting?
  }

  ghost predicate SettledJobs(s: State, v: VideoId) {
    forall w :: Handles(s, w, v) ==> SettledPc(s.net, JobOf(s, w).pc)
  }

  predicate Pending(n: Net, r: RequestId, v: VideoId) {
    r in n.requests && n.requests[r].video == v && !n.requests[r].committed
  }

  ghost predicate OnlyFailedPending(n: Net, v: VideoId) {
    forall r :: Pending(n, r, v) ==> n.requests[r].status == VideoTable.Failed
  }

  /** What may still be written to v: `failed`, and while v is ready also what the guard suppresses. */
  ghost predicate PendingOk(s: State, v: VideoId) {
    forall r :: Pending(s.net, r, v) ==>
      var q := s.net.requests[r];
      (q.status == VideoTable.Failed && q.renditions == []) || (IsReady(s, v) && q.status in {Processing, Uploaded})
  }

  /** v is ready or failed, its row is not being deleted, and its deliveries do no work on it any more. */
  ghost predicate Settled(s: State, v: VideoId) {
    && (IsReady(s, v) || IsFailed(s, v))
    && PendingOk(s, v)
    && (forall d :: d in s.deletions ==> s.deletions[d].video != v)
    && SettledJobs(s, v)
  }

  predicate QuietJob(j: Job) {
    || j.pc == Start || j.pc.AwaitingReady? || j.pc == Cleaning || j.pc == Returned || j.pc == Republished
    || (j.pc == Raised && j.count < MAX_RETRIES)
  }

  /** v is ready, no failure of it is pending, and no delivery of it is about to send one. */
  ghost predicate QuietReady(s: State, v: VideoId) {
    && Settled(s, v) && IsReady(s, v)
    && (forall r :: Pending(s.net, r, v) ==> s.net.requests[r].status != VideoTable.Failed)
    && (forall w :: Handles(s, w, v) ==> QuietJob(JobOf(s, w)))
  }

  // ----- what may happen -----

  /**
   Any step at all, except that v's owner does not delete it, the reconciler does not fail
   it, and status reads of its deliveries are answered.
   */
  ghost predicate ReplayStep(s: State, v: VideoId, a: Action) {
    match a
    case ReconcilerFails(x) => x != v
    case BeginDelete(d, x, _) => x != v
    case ReadStatus(w, ok) => Handles(s, w, v) ==> ok
    case _ => true
  }

  ghost predicate ReplayTrace(states: seq<State>, acts: seq<Action>, v: VideoId) {
    && Trace(states, acts)
    && Reachable(states[0]) && QuietReady(states[0], v)
    && forall i :: 0 <= i < |acts| ==> ReplayStep(states[i], v, acts[i])
  }

  /** The raw input is put again, or a finished delivery of v cleans it up. */
  predicate MovesRaw(s: State, a: Action, v: VideoId) {
    a == PutRaw(v) || (a.CleanRaw? && a.removed && Handles(s, a.w, v))
  }

  /** What is stored about v apart from its status and its raw input: its rendition rows and its other objects. */
  ghost predicate SameFiles(a: Store, b: Store, v: VideoId) {
    && (forall q :: (v, q) in a.table.renditions <==> (v, q) in b.table.renditions)
    && (forall q :: (v, q) in a.table.renditions ==> a.table.renditions[(v, q)] == b.table.renditions[(v, q)])
    && (forall k: Key :: k.video == v && k != Raw(v) ==> (k in a.bucket <==> k in b.bucket))
  }

  // ----- jobs and requests -----

  ghost predicate CommitsStay(a: Net, b: Net) {
    forall r :: r in a.requests ==>
      && r in b.requests && b.requests[r].video == a.requests[r].video && b.requests[r].status == a.requests[r].status
      && (a.requests[r].committed ==> b.requests[r].committed)
  }

  /** No request is forgotten, and a committed one stays committed. */
  lemma RequestsStay(s: State, a: Action)
    requires NetOk(s.store, s.net) && Enabled(s, a)
    ensures CommitsStay(s.net, Apply(s, a).net)
  {
    hide CommitsStay;
    if OwnerEnabled(s, a) {
      RequestsStayInOwner(s, a);
    } else if BrokerEnabled(s, a) {
      RequestsStayInBroker(s, a);
    } else if WorkEnabled(s, a) {
      RequestsStayInWork(s, a);
    } else {
      RequestsStayInSettle(s, a);
    }
  }

  lemma RequestsStayInOwner(s: State, a: Action)
    requires NetOk(s.store, s.net) && OwnerEnabled(s, a)
    ensures CommitsStay(s.net, ApplyOwner(s, a).net)
  {
  }

  lemma RequestsStayInBroker(s: State, a: Action)
    requires BrokerEnabled(s, a)
    ensures CommitsStay(s.net, ApplyBroker(s, a).net)
  {
    assert ApplyBroker(s, a).net == s.net;
  }

  lemma RequestsStayInWork(s: State, a: Action)
    requires NetOk(s.store, s.net) && WorkEnabled(s, a)
    ensures CommitsStay(s.net, ApplyWork(s, a).net)
  {
  }

  lemma RequestsStayInSettle(s: State, a: Action)
    requires NetOk(s.store, s.net) && SettleEnabled(s, a)
    ensures CommitsStay(s.net, ApplySettle(s, a).net)
  {
  }

  lemma SettledJobsStay(s: State, t: State, v: VideoId)
    requires SettledJobs(s, v) && CommitsStay(s.net, t.net)
    requires forall u :: HasJob(t, u) ==> HasJob(s, u) && JobOf(t, u) == JobOf(s, u)
    ensures SettledJobs(t, v)
  {
    forall u | Handles(t, u, v) ensures SettledPc(t.net, JobOf(t, u).pc) {
      assert Handles(s, u, v);
    }
  }

  /** Only w's job may have changed. */
  lemma SettledJobsStayBut(s: State, t: State, v: VideoId, w: WorkerId)
    requires SettledJobs(s, v) && CommitsStay(s.net, t.net)
    requires forall u :: u != w && HasJob(t, u) ==> HasJob(s, u) && JobOf(t, u) == JobOf(s, u)
    requires Handles(t, w, v) ==> SettledPc(t.net, JobOf(t, w).pc)
    ensures SettledJobs(t, v)
  {
    forall u | Handles(t, u, v) ensures SettledPc(t.net, JobOf(t, u).pc) {
      assert u != w ==> Handles(s, u, v);
    }
  }

  // ----- one step keeps v settled -----

  /** What a step does to a settled video: its files stay, and its status changes only by the commit of a failure. */
  ghost predicate KeepsSettled(s: State, t: State, a: Action, v: VideoId) {
    && Settled(t, v)
    && SameFiles(s.store, t.store, v)
    && (!MovesRaw(s, a, v) ==> (Raw(v) in s.store.bucket <==> Raw(v) in t.store.bucket))
    && (if FailureCommits(s, a, v) then IsFailed(t, v) else (IsReady(s, v) <==> IsReady(t, v)) && (IsFailed(s, v) <==> IsFailed(t, v)))
    && (OnlyFailedPending(s.net, v) ==> OnlyFailedPending(t.net, v))
  }

  lemma SettledAsBefore(s: State, t: State, v: VideoId)
    requires Settled(s, v) && SettledJobs(t, v) && t.deletions == s.deletions
    requires (IsReady(s, v) <==> IsReady(t, v)) && (IsFailed(s, v) <==> IsFailed(t, v))
    requires forall r :: Pending(t.net, r, v) ==> Pending(s.net, r, v) && t.net.requests[r] == s.net.requests[r]
    ensures Settled(t, v)
    ensures OnlyFailedPending(s.net, v) ==> OnlyFailedPending(t.net, v)
  {
  }

  /** A failure that commits leaves nothing else to commit. */
  ghost predicate LastWord(s: State, a: Action, v: VideoId) {
    FailureCommits(s, a, v) ==> OnlyFailedPending(s.net, v)
  }

  lemma CommitSettled(s: State, r: RequestId, v: VideoId)
    requires Settled(s, v) && OwnerEnabled(s, Commit(r)) && LastWord(s, Commit(r), v)
    ensures KeepsSettled(s, ApplyOwner(s, Commit(r)), Commit(r), v)
  {
    var t := ApplyOwner(s, Commit(r));
    SettledJobsStay(s, t, v);
    CommitPending(s, r, v);
    CommitFiles(s, r, v);
    hide SettledJobs, SameFiles, ApplyOwner;
  }

  /** The commit of a failure changes v's status, and any other commit nothing of v's. */
  lemma CommitFiles(s: State, r: RequestId, v: VideoId)
    requires Settled(s, v) && OwnerEnabled(s, Commit(r))
    ensures var t := ApplyOwner(s, Commit(r));
            && SameFiles(s.store, t.store, v) && t.store.bucket == s.store.bucket
            && t.workers == s.workers && t.deletions == s.deletions
            && (if FailureCommits(s, Commit(r), v) then IsFailed(t, v)
                else (IsReady(s, v) <==> IsReady(t, v)) && (IsFailed(s, v) <==> IsFailed(t, v)))
  {
    hide SettledJobs;
    var q := s.net.requests[r];
    UpdateTouchesOneVideo(s.store.table, q.video, q.status, q.renditions);
    CommitPending(s, r, v);
  }

  /** A commit takes its own request out of what is pending, and nothing else. */
  lemma CommitPending(s: State, r: RequestId, v: VideoId)
    requires OwnerEnabled(s, Commit(r))
    ensures s.net.requests[r].video == v ==> Pending(s.net, r, v)
    ensures var t := ApplyOwner(s, Commit(r));
            forall x :: Pending(t.net, x, v) ==> Pending(s.net, x, v) && x != r && t.net.requests[x] == s.net.requests[x]
  {
  }

  lemma StoreSettled(s: State, v: VideoId, a: Action)
    requires StoreInv(s) && Settled(s, v) && OwnerEnabled(s, a) && ReplayStep(s, v, a) && !a.Commit?
    requires CommitsStay(s.net, ApplyOwner(s, a).net)
    ensures KeepsSettled(s, ApplyOwner(s, a), a, v)
  {
    OwnersLeaveTheFiles(s, v, a);
    OwnersLeaveItPending(s, v, a);
    SettledJobsStay(s, ApplyOwner(s, a), v);
  }

  lemma OwnersLeaveTheFiles(s: State, v: VideoId, a: Action)
    requires StoreInv(s) && Settled(s, v) && OwnerEnabled(s, a) && ReplayStep(s, v, a) && !a.Commit?
    ensures var t := ApplyOwner(s, a);
            && SameFiles(s.store, t.store, v) && (IsReady(s, v) <==> IsReady(t, v)) && (IsFailed(s, v) <==> IsFailed(t, v))
            && (!MovesRaw(s, a, v) ==> (Raw(v) in s.store.bucket <==> Raw(v) in t.store.bucket))
  {
    hide SettledJobs, PendingOk, HistoryOk, NetOk, JobsOk;
    if a.DeleteObject? {
      assert DeletionOk(s.store, s.deletions[a.d]);
    }
  }

  lemma OwnersLeaveItPending(s: State, v: VideoId, a: Action)
    requires Settled(s, v) && OwnerEnabled(s, a) && ReplayStep(s, v, a) && !a.Commit?
    ensures forall r :: Pending(ApplyOwner(s, a).net, r, v) ==> Pending(s.net, r, v) && ApplyOwner(s, a).net.requests[r] == s.net.requests[r]
    ensures forall d :: d in ApplyOwner(s, a).deletions ==> ApplyOwner(s, a).deletions[d].video != v
    ensures ApplyOwner(s, a).workers == s.workers
  {
  }

  lemma BrokerSettled(s: State, v: VideoId, a: Action)
    requires Settled(s, v) && BrokerEnabled(s, a)
    ensures KeepsSettled(s, ApplyBroker(s, a), a, v)
  {
    var t := ApplyBroker(s, a);
    assert t.net == s.net && t.store == s.store;
    match a
    case ExpireTtl(m) => SettledJobsStay(s, t, v);
    case Connect(w) => SettledJobsStayBut(s, t, v, w);
    case Deliver(w, m) => SettledJobsStayBut(s, t, v, w);
    case Disconnect(w) => SettledJobsStay(s, t, v);
    case Crash(w) => SettledJobsStay(s, t, v);
  }

  function WorkSession(a: Action): WorkerId
    requires
      || a.RejectBody? || a.ReadStatus? || a.PatchProcessing? || a.Fetch? || a.RaiseInWork? || a.PutRendition?
      || a.PatchProgress? || a.PatchReady? || a.ReadyAnswer? || a.CleanRaw?
  {
    a.w
  }

  /** A session in process_message on v skips it or finishes with it; any other works on another video. */
  lemma WorkSettled(s: State, v: VideoId, a: Action)
    requires StoreInv(s) && Settled(s, v) && WorkEnabled(s, a) && ReplayStep(s, v, a)
    requires CommitsStay(s.net, ApplyWork(s, a).net)
    ensures KeepsSettled(s, ApplyWork(s, a), a, v)
  {
    WorkLeavesTheTables(s, a);
    if Handles(s, WorkSession(a), v) {
      OwnWork(s, v, a);
      SettledJobsStayBut(s, ApplyWork(s, a), v, WorkSession(a));
    } else {
      ElsewhereSettled(s, v, a);
    }
  }

  /** What is left of process_message for a delivery of v: the skip branch, the ready reply and the cleaning up. */
  lemma OwnWork(s: State, v: VideoId, a: Action)
    requires Settled(s, v) && WorkEnabled(s, a) && ReplayStep(s, v, a) && Handles(s, WorkSession(a), v)
    ensures a.RejectBody? || a.ReadStatus? || a.ReadyAnswer? || a.CleanRaw?
    ensures var t := ApplyWork(s, a);
            var w := WorkSession(a);
            && t.net == s.net && t.broker.msgs == s.broker.msgs && t.deletions == s.deletions
            && t.store == s.store.(bucket := if a.CleanRaw? && a.removed then s.store.bucket - {Raw(v)} else s.store.bucket)
            && t.workers.Keys == s.workers.Keys
            && t.workers[w].job == Some(JobOf(s, w).(pc := if a.ReadyAnswer? then (if a.ok then Cleaning else Raised) else Returned))
            && forall u :: u != w && u in s.workers ==> t.workers[u] == s.workers[u]
  {
    assert SettledPc(s.net, JobOf(s, WorkSession(a)).pc);
  }

  lemma ElsewhereSettled(s: State, v: VideoId, a: Action)
    requires StoreInv(s) && Settled(s, v) && WorkEnabled(s, a) && !Handles(s, WorkSession(a), v)
    requires ApplyWork(s, a).store.table == s.store.table && CommitsStay(s.net, ApplyWork(s, a).net)
    ensures KeepsSettled(s, ApplyWork(s, a), a, v)
  {
    var w := WorkSession(a);
    assert JobOk(s.store, s.net, JobOf(s, w)) && SettledJobs(s, v);
    hide StoreInv, JobOk, Settled, SettledJobs, WorkEnabled, ApplyWork, CommitsStay;
    FilesElsewhere(s, v, a);
    PendingElsewhere(s, v, a);
    JobsElsewhere(s, v, a);
    SettledAsBefore(s, ApplyWork(s, a), v);
  }

  lemma JobsElsewhere(s: State, v: VideoId, a: Action)
    requires SettledJobs(s, v) && WorkEnabled(s, a) && !Handles(s, WorkSession(a), v)
    requires CommitsStay(s.net, ApplyWork(s, a).net)
    ensures SettledJobs(ApplyWork(s, a), v)
  {
    SettledJobsStayBut(s, ApplyWork(s, a), v, WorkSession(a));
  }

  lemma PendingElsewhere(s: State, v: VideoId, a: Action)
    requires WorkEnabled(s, a) && !Handles(s, WorkSession(a), v)
    requires JobOk(s.store, s.net, JobOf(s, WorkSession(a)))
    ensures forall r :: Pending(ApplyWork(s, a).net, r, v) ==> Pending(s.net, r, v) && ApplyWork(s, a).net.requests[r] == s.net.requests[r]
    ensures ApplyWork(s, a).deletions == s.deletions
  {
  }

  lemma FilesElsewhere(s: State, v: VideoId, a: Action)
    requires StoreInv(s) && WorkEnabled(s, a) && !Handles(s, WorkSession(a), v)
    requires JobOk(s.store, s.net, JobOf(s, WorkSession(a)))
    ensures forall k: Key :: k.video == v ==> (k in ApplyWork(s, a).store.bucket <==> k in s.store.bucket)
  {
    if a.PutRendition? {
      PutElsewhere(s, v, WorkSession(a));
    }
  }

  lemma PutElsewhere(s: State, v: VideoId, w: WorkerId)
    requires StoreInv(s) && HasJob(s, w) && JobOf(s, w).pc.Encoding? && !Handles(s, w, v)
    requires JobOf(s, w).pc.done < |JobOf(s, w).pc.ladder|
    ensures JobOf(s, w).pc.ladder[JobOf(s, w).pc.done].key.video != v
  {
  }

  lemma SettleSettled(s: State, v: VideoId, a: Action)
    requires Settled(s, v) && SettleEnabled(s, a) && CommitsStay(s.net, ApplySettle(s, a).net)
    ensures KeepsSettled(s, ApplySettle(s, a), a, v)
  {
    SettledJobsStayBut(s, ApplySettle(s, a), v, Session(a));
    PendingInSettle(s, v, a);
  }

  lemma PendingInSettle(s: State, v: VideoId, a: Action)
    requires SettleEnabled(s, a)
    ensures ApplySettle(s, a).store == s.store && ApplySettle(s, a).deletions == s.deletions
    ensures forall r :: Pending(ApplySettle(s, a).net, r, v) ==>
              if r == s.net.next && a.PatchFailed? then ApplySettle(s, a).net.requests[r] == Request(v, VideoTable.Failed, [], false) || ApplySettle(s, a).net == s.net
              else Pending(s.net, r, v) && ApplySettle(s, a).net.requests[r] == s.net.requests[r]
  {
  }

  lemma StepSettled(s: State, v: VideoId, a: Action)
    requires StoreInv(s) && Settled(s, v) && Enabled(s, a) && ReplayStep(s, v, a) && LastWord(s, a, v)
    ensures KeepsSettled(s, Apply(s, a), a, v)
  {
    hide Settled, KeepsSettled;
    RequestsStay(s, a);
    if OwnerEnabled(s, a) {
      if a.Commit? {
        CommitSettled(s, a.r, v);
      } else {
        StoreSettled(s, v, a);
      }
    } else if BrokerEnabled(s, a) {
      BrokerSettled(s, v, a);
    } else if WorkEnabled(s, a) {
      WorkSettled(s, v, a);
    } else {
      SettleSettled(s, v, a);
    }
  }

  // ----- over a run -----

  /** No failure of v commits before position j. */
  ghost predicate NotFailedBefore(states: seq<State>, acts: seq<Action>, v: VideoId, j: int)
    requires |states| == |acts| + 1 && j <= |acts|
  {
    forall i :: 0 <= i < j ==> !FailureCommits(states[i], acts[i], v)
  }

  ghost predicate RawUntouched(states: seq<State>, acts: seq<Action>, v: VideoId, j: int)
    requires |states| == |acts| + 1 && j <= |acts|
  {
    forall i :: 0 <= i < j ==> !MovesRaw(states[i], acts[i], v)
  }

  /**
   The files of a ready video stay whatever happens to its deliveries, failing calls included:
   up to the commit of a failure at least, and beyond it when nothing else was pending at the
   start, for then its deliveries keep skipping it.
   */
  lemma {:induction false} FilesStay(states: seq<State>, acts: seq<Action>, v: VideoId, j: nat)
    requires ReplayTrace(states, acts, v) && j <= |acts|
    requires NotFailedBefore(states, acts, v, j) || OnlyFailedPending(states[0].net, v)
    ensures Settled(states[j], v)
    ensures SameFiles(states[0].store, states[j].store, v)
    ensures RawUntouched(states, acts, v, j) ==> (Raw(v) in states[0].store.bucket <==> Raw(v) in states[j].store.bucket)
    ensures if NotFailedBefore(states, acts, v, j) then IsReady(states[j], v) else IsFailed(states[j], v)
    ensures OnlyFailedPending(states[0].net, v) ==> OnlyFailedPending(states[j].net, v)
  {
    hide Settled, OnlyFailedPending, ReplayStep, Enabled, Apply, StoreInv, MessageInv;
    if j > 0 {
      FilesStay(states, acts, v, j - 1);
      InvAlong(states, acts, j - 1);
      StepSettled(states[j - 1], v, acts[j - 1]);
    }
  }

  // ----- replays without a call that fails for good -----

  ghost predicate SameVideo(a: State, b: State, v: VideoId) {
    SameFiles(a.store, b.store, v) && IsReady(a, v) && IsReady(b, v)
  }

  /** No message about v is dead-lettered that was not. */
  ghost predicate NoNewDeadLetters(a: Broker, b: Broker, v: VideoId) {
    forall m :: m in b.msgs && Mentioned(b.msgs[m].body) == Some(v) && b.msgs[m].place.DeadLetter? ==>
      m in a.msgs && a.msgs[m] == b.msgs[m]
  }

  lemma JobsStayQuiet(s: State, v: VideoId, a: Action, w: WorkerId)
    requires QuietReady(s, v) && Enabled(s, a) && ReplayStep(s, v, a) && !Doomed(s, a, w, v)
    requires Handles(Apply(s, a), w, v)
    ensures QuietJob(JobOf(Apply(s, a), w))
  {
    if OwnerEnabled(s, a) || BrokerEnabled(s, a) {
      assert a != Deliver(w, if a.Deliver? then a.m else 0) ==> Handles(s, w, v) && JobOf(Apply(s, a), w) == JobOf(s, w);
    } else if WorkEnabled(s, a) {
      if w == WorkSession(a) {
        assert Handles(s, w, v);
        OwnWork(s, v, a);
      } else {
        assert Handles(s, w, v);
      }
    } else {
      QuietInSettle(s, v, a, w);
    }
  }

  lemma QuietInSettle(s: State, v: VideoId, a: Action, w: WorkerId)
    requires QuietReady(s, v) && SettleEnabled(s, a) && !Doomed(s, a, w, v) && Handles(ApplySettle(s, a), w, v)
    ensures QuietJob(JobOf(ApplySettle(s, a), w))
  {
    hide Settled;
    assert Handles(s, w, v) && QuietJob(JobOf(s, w));
  }

  lemma NothingDeadLettered(s: State, v: VideoId, a: Action)
    requires MessageInv(s) && QuietReady(s, v) && Enabled(s, a)
    ensures NoNewDeadLetters(s.broker, Apply(s, a).broker, v)
  {
    if OwnerEnabled(s, a) {
      DeadLettersInOwner(s, v, a);
    } else if BrokerEnabled(s, a) {
      DeadLettersInBroker(s, v, a);
    } else if WorkEnabled(s, a) {
      MessagesStayInWork(s, a);
    } else {
      DeadLettersInSettle(s, v, a);
    }
  }

  lemma DeadLettersInOwner(s: State, v: VideoId, a: Action)
    requires OwnerEnabled(s, a)
    ensures NoNewDeadLetters(s.broker, ApplyOwner(s, a).broker, v)
  {
  }

  lemma DeadLettersInBroker(s: State, v: VideoId, a: Action)
    requires BrokerEnabled(s, a)
    ensures NoNewDeadLetters(s.broker, ApplyBroker(s, a).broker, v)
  {
  }

  lemma MessagesStayInWork(s: State, a: Action)
    requires WorkEnabled(s, a)
    ensures ApplyWork(s, a).broker.msgs == s.broker.msgs
  {
  }

  lemma DeadLettersInSettle(s: State, v: VideoId, a: Action)
    requires MessageInv(s) && QuietReady(s, v) && SettleEnabled(s, a)
    ensures NoNewDeadLetters(s.broker, ApplySettle(s, a).broker, v)
  {
    var w := Session(a);
    assert HandleOk(s.broker, w, s.workers[w].connected, JobOf(s, w));
    assert Handles(s, w, v) ==> QuietJob(JobOf(s, w));
    if a.Nack? && a.call.taken {
      assert MessageOk(s.broker, JobOf(s, w).msg);
    }
  }

  lemma QuietSendsNoFailure(s: State, v: VideoId, a: Action, w: WorkerId)
    requires QuietReady(s, v) && Enabled(s, a)
    ensures !SendsFailed(s, a, w, v) && !FailureCommits(s, a, v)
  {
    hide Settled;
    if SendsFailed(s, a, w, v) {
      SendingIsDue(s, a, w, v);
      assert false;
    }
    assert a.Commit? ==> !(Pending(s.net, a.r, v) && FailureRequest(s.net, a.r, v));
  }

  lemma PendingStaysQuiet(s: State, v: VideoId, a: Action, r: RequestId)
    requires StoreInv(s) && QuietReady(s, v) && Enabled(s, a) && ReplayStep(s, v, a) && Pending(Apply(s, a).net, r, v)
    ensures Apply(s, a).net.requests[r].status != VideoTable.Failed
  {
    hide Settled, Enabled, Apply;
    FailuresSent(s, a, r, v);
    RequestsStay(s, a);
    QuietSendsNoFailure(s, v, a, if a.PatchFailed? then a.w else 0);
  }

  lemma StepStaysQuiet(s: State, v: VideoId, a: Action)
    requires StoreInv(s) && MessageInv(s) && QuietReady(s, v) && Enabled(s, a) && ReplayStep(s, v, a)
    requires forall w :: !Doomed(s, a, w, v)
    ensures QuietReady(Apply(s, a), v) && KeepsSettled(s, Apply(s, a), a, v) && !FailureCommits(s, a, v)
    ensures NoNewDeadLetters(s.broker, Apply(s, a).broker, v)
  {
    hide Settled, Enabled, Apply, StoreInv, MessageInv, QuietJob, Doomed, ReplayStep;
    var t := Apply(s, a);
    QuietSendsNoFailure(s, v, a, 0);
    StepSettled(s, v, a);
    NothingDeadLettered(s, v, a);
    forall w | Handles(t, w, v) ensures QuietJob(JobOf(t, w)) {
      JobsStayQuiet(s, v, a, w);
    }
    forall r | Pending(t.net, r, v) ensures t.net.requests[r].status != VideoTable.Failed {
      PendingStaysQuiet(s, v, a, r);
    }
  }

  /**
   Replay is a no-op: from any reachable state in which v is ready and quiet, progress updates
   of earlier attempts still pending, any number of further deliveries of its events,
   redeliveries, retries and republishes leave its status, its rendition rows and its objects
   as they are, but for the raw input, and dead-letter nothing, as long as no call fails where
   no retry is left.  The raw input only goes when a delivery that saw ready confirmed
   cleans it up.
   */
  lemma {:induction false} ReplayIsANoOp(states: seq<State>, acts: seq<Action>, v: VideoId, j: nat)
    requires ReplayTrace(states, acts, v) && j <= |acts|
    requires forall i, w :: 0 <= i < |acts| ==> !Doomed(states[i], acts[i], w, v)
    ensures SameVideo(states[0], states[j], v)
    ensures RawUntouched(states, acts, v, j) ==> (Raw(v) in states[0].store.bucket <==> Raw(v) in states[j].store.bucket)
    ensures NoNewDeadLetters(states[0].broker, states[j].broker, v)
    ensures QuietReady(states[j], v) && NotFailedBefore(states, acts, v, j)
    decreases j
  {
    hide Settled, Enabled, Apply, StoreInv, MessageInv, QuietJob, Doomed, ReplayStep;
    if j > 0 {
      ReplayIsANoOp(states, acts, v, j - 1);
      InvAlong(states, acts, j - 1);
      StepStaysQuiet(states[j - 1], v, acts[j - 1]);
    }
  }

  /**
   The law applies as soon as a ready update has committed: for every number of retries there
   is such a state, with the reply not seen yet and progress updates of its attempts still pending.
   */
  lemma QuietIsReached(c: nat) returns (s: State)
    requires c <= MAX_RETRIES
    ensures Reachable(s) && QuietReady(s, 0) && Handles(s, 0, 0) && JobOf(s, 0).pc.AwaitingReady? && JobOf(s, 0).count == c
    ensures Pending(s.net, 0, 0) && s.net.requests[0].status == Processing && Enabled(s, Commit(0))
  {
    s := ReadyIsReached(c);
  }

  // ----- what every such delivery ends as -----

  /** A step of w's handler. */
  predicate Moves(a: Action, w: WorkerId) {
    match a
    case RejectBody(u) => u == w
    case ReadStatus(u, _) => u == w
    case ReadyAnswer(u, _) => u == w
    case CleanRaw(u, _, _) => u == w
    case SkipAck(u) => u == w
    case Ack(u, _) => u == w
    case Republish(u, _) => u == w
    case AckOriginal(u, _) => u == w
    case _ => false
  }

  function Rank(pc: Pc): nat {
    match pc
    case AwaitingReady(_) => 5
    case Start => 4
    case Cleaning => 4
    case Returned => 3
    case Raised => 2
    case Republished => 1
    case _ => 0
  }

  /** A handler on v only moves on, and when it is through its message is settled, or left as it is to be redelivered. */
  lemma DeliveryMovesOn(s: State, v: VideoId, w: WorkerId, a: Action)
    requires QuietReady(s, v) && Handles(s, w, v) && Enabled(s, a) && ReplayStep(s, v, a) && !Doomed(s, a, w, v)
    requires a != Crash(w)
    ensures var t := Apply(s, a);
            if Moves(a, w) then
              (if HasJob(t, w) then t.workers[w].job == Some(JobOf(s, w).(pc := JobOf(t, w).pc)) && Rank(JobOf(t, w).pc) < Rank(JobOf(s, w).pc)
               else t.broker == Removed(s.broker, JobOf(s, w).msg) || t.broker == s.broker)
            else HasJob(t, w) && JobOf(t, w) == JobOf(s, w)
  {
    assert QuietJob(JobOf(s, w));
    if OwnerEnabled(s, a) || BrokerEnabled(s, a) {
      JobStaysOutside(s, w, a);
    } else if WorkEnabled(s, a) {
      MovesInWork(s, v, w, a);
    } else {
      MovesInSettle(s, v, w, a);
    }
  }

  /** Owners, metadata and the broker leave a handler alone, unless its process dies. */
  lemma JobStaysOutside(s: State, w: WorkerId, a: Action)
    requires HasJob(s, w) && (OwnerEnabled(s, a) || BrokerEnabled(s, a)) && a != Crash(w)
    ensures HasJob(Apply(s, a), w) && JobOf(Apply(s, a), w) == JobOf(s, w) && !Moves(a, w)
  {
  }

  lemma MovesInWork(s: State, v: VideoId, w: WorkerId, a: Action)
    requires Settled(s, v) && Handles(s, w, v) && QuietJob(JobOf(s, w)) && WorkEnabled(s, a) && ReplayStep(s, v, a)
    ensures HasJob(ApplyWork(s, a), w)
    ensures var j := JobOf(ApplyWork(s, a), w);
            if Moves(a, w) then j == JobOf(s, w).(pc := j.pc) && Rank(j.pc) < Rank(JobOf(s, w).pc)
            else j == JobOf(s, w)
  {
    if w == WorkSession(a) {
      OwnWork(s, v, a);
    }
  }

  lemma MovesInSettle(s: State, v: VideoId, w: WorkerId, a: Action)
    requires Handles(s, w, v) && QuietJob(JobOf(s, w)) && SettleEnabled(s, a) && !Doomed(s, a, w, v)
    ensures var t := ApplySettle(s, a);
            if Moves(a, w) then
              (if HasJob(t, w) then t.workers[w].job == Some(JobOf(s, w).(pc := JobOf(t, w).pc)) && Rank(JobOf(t, w).pc) < Rank(JobOf(s, w).pc)
               else t.broker == Removed(s.broker, JobOf(s, w).msg) || t.broker == s.broker)
            else HasJob(t, w) && JobOf(t, w) == JobOf(s, w)
  {
  }

  /** What the handler does next when nothing goes wrong. */
  function NextMove(j: Job, w: WorkerId): Action
    requires QuietJob(j)
  {
    if j.pc == Start then (if j.body.Malformed? then RejectBody(w) else ReadStatus(w, true))
    else if j.pc.AwaitingReady? then ReadyAnswer(w, true)
    else if j.pc == Cleaning then CleanRaw(w, true, false)
    else if j.pc == Returned then SkipAck(w)
    else if j.pc == Raised then Republish(w, Call(false, false))
    else AckOriginal(w, Call(false, false))
  }

  lemma NextMoveIsPossible(s: State, v: VideoId, w: WorkerId)
    requires IsReady(s, v) && Handles(s, w, v) && QuietJob(JobOf(s, w))
    requires SettledPc(s.net, JobOf(s, w).pc) && JobOk(s.store, s.net, JobOf(s, w))
    ensures var a := NextMove(JobOf(s, w), w);
            WorkEnabled(s, a) || SettleEnabled(s, a)
  {
  }

  /** Some next step is always possible for it. */
  lemma DeliveryCanMove(s: State, v: VideoId, w: WorkerId)
    requires StoreInv(s) && QuietReady(s, v) && Handles(s, w, v)
    ensures exists a :: Moves(a, w) && Enabled(s, a) && ReplayStep(s, v, a) && !Doomed(s, a, w, v)
  {
    var j := JobOf(s, w);
    assert QuietJob(j) && SettledPc(s.net, j.pc) && JobOk(s.store, s.net, j) && IsReady(s, v);
    hide StoreInv, QuietReady, JobOk, WorkEnabled, SettleEnabled, OwnerEnabled, BrokerEnabled;
    NextMoveIsPossible(s, v, w);
    assert Moves(NextMove(j, w), w) && Enabled(s, NextMove(j, w)) && !Doomed(s, NextMove(j, w), w, v);
  }

  function OwnMoves(acts: seq<Action>, w: WorkerId): nat {
    if acts == [] then 0 else OwnMoves(acts[..|acts| - 1], w) + if Moves(acts[|acts| - 1], w) then 1 else 0
  }

  /** w has one delivery of v in hand from position i to position j. */
  ghost predicate InHand(states: seq<State>, w: WorkerId, v: VideoId, i: int, j: int) {
    0 <= i <= j < |states| && forall k :: i <= k <= j ==> Handles(states[k], w, v)
  }

  ghost predicate NoneDoomed(states: seq<State>, acts: seq<Action>, v: VideoId)
    requires Trace(states, acts)
  {
    forall k, w :: 0 <= k < |acts| ==> !Doomed(states[k], acts[k], w, v)
  }

  /** v is quiet at every position, and every step is one of a replay. */
  ghost predicate QuietTrace(states: seq<State>, acts: seq<Action>, v: VideoId) {
    && Trace(states, acts)
    && (forall k :: 0 <= k <= |acts| ==> StoreInv(states[k]) && QuietReady(states[k], v))
    && (forall k :: 0 <= k < |acts| ==> ReplayStep(states[k], v, acts[k]))
    && (forall k, w :: 0 <= k < |acts| ==> !Doomed(states[k], acts[k], w, v))
  }

  /** Ranks that fall with every move bound the number of moves. */
  lemma {:induction false} FewMoves(ranks: seq<nat>, acts: seq<Action>, w: WorkerId)
    requires |ranks| == |acts| + 1
    requires forall k :: 0 <= k < |acts| ==> ranks[k + 1] + (if Moves(acts[k], w) then 1 else 0) <= ranks[k]
    ensures OwnMoves(acts, w) + ranks[|acts|] <= ranks[0]
    decreases |acts|
  {
    if acts != [] {
      var last := |acts| - 1;
      assert forall k :: 0 <= k < last ==> acts[..last][k] == acts[k];
      FewMoves(ranks[..last + 1], acts[..last], w);
    }
  }

  lemma MoveLowersRank(s: State, v: VideoId, w: WorkerId, a: Action)
    requires QuietReady(s, v) && Handles(s, w, v) && Enabled(s, a) && ReplayStep(s, v, a) && !Doomed(s, a, w, v)
    requires Handles(Apply(s, a), w, v)
    ensures Rank(JobOf(Apply(s, a), w).pc) + (if Moves(a, w) then 1 else 0) <= Rank(JobOf(s, w).pc)
  {
    assert a != Crash(w);
    DeliveryMovesOn(s, v, w, a);
  }

  function RankAt(s: State, w: WorkerId): nat {
    if HasJob(s, w) then Rank(JobOf(s, w).pc) else 0
  }

  function Ranks(states: seq<State>, w: WorkerId): (ranks: seq<nat>)
    ensures |ranks| == |states|
    ensures forall k :: 0 <= k < |states| ==> ranks[k] == RankAt(states[k], w)
  {
    seq(|states|, k requires 0 <= k < |states| => RankAt(states[k], w))
  }

  lemma RankFalls(states: seq<State>, acts: seq<Action>, v: VideoId, w: WorkerId, k: nat)
    requires QuietTrace(states, acts, v) && k < |acts| && Handles(states[k], w, v) && Handles(states[k + 1], w, v)
    ensures RankAt(states[k + 1], w) + (if Moves(acts[k], w) then 1 else 0) <= RankAt(states[k], w)
  {
    MoveLowersRank(states[k], v, w, acts[k]);
  }

  lemma RanksFall(states: seq<State>, acts: seq<Action>, v: VideoId, w: WorkerId, i: nat, j: nat)
    requires QuietTrace(states, acts, v) && InHand(states, w, v, i, j)
    ensures forall k :: i <= k < j ==> RankAt(states[k + 1], w) + (if Moves(acts[k], w) then 1 else 0) <= RankAt(states[k], w)
  {
    forall k | i <= k < j
      ensures RankAt(states[k + 1], w) + (if Moves(acts[k], w) then 1 else 0) <= RankAt(states[k], w)
    {
      RankFalls(states, acts, v, w, k);
    }
  }

  lemma AtMostTheRank(states: seq<State>, acts: seq<Action>, w: WorkerId, i: nat, j: nat)
    requires |states| == |acts| + 1 && i <= j <= |acts|
    requires forall k :: i <= k < j ==> RankAt(states[k + 1], w) + (if Moves(acts[k], w) then 1 else 0) <= RankAt(states[k], w)
    ensures OwnMoves(acts[i..j], w) <= RankAt(states[i], w)
  {
    var some := states[i..j + 1];
    var ranks := Ranks(some, w);
    var few := acts[i..j];
    forall k | 0 <= k < |few| ensures ranks[k + 1] + (if Moves(few[k], w) then 1 else 0) <= ranks[k] {
      assert some[k] == states[i + k] && some[k + 1] == states[i + k + 1] && few[k] == acts[i + k];
    }
    FewMoves(ranks, few, w);
  }

  /**
   Each replay settles: while w holds one delivery of v it takes at most Rank steps, four from
   its start and five from its own ready update on; one is always possible, and the one that ends it acknowledges the message or leaves it, with
   all others, as it is.
   */
  lemma ReplaySettles(states: seq<State>, acts: seq<Action>, v: VideoId, w: WorkerId, i: nat, j: nat)
    requires ReplayTrace(states, acts, v) && NoneDoomed(states, acts, v) && InHand(states, w, v, i, j)
    ensures OwnMoves(acts[i..j], w) <= Rank(JobOf(states[i], w).pc)
    ensures exists a :: Moves(a, w) && Enabled(states[j], a) && ReplayStep(states[j], v, a) && !Doomed(states[j], a, w, v)
    ensures Handles(states[j], w, v)
    ensures j < |acts| && !HasJob(states[j + 1], w) && acts[j] != Crash(w) ==>
              && Moves(acts[j], w)
              && (states[j + 1].broker == states[j].broker || states[j + 1].broker == Removed(states[j].broker, JobOf(states[j], w).msg))
  {
    forall k | 0 <= k <= |acts| ensures StoreInv(states[k]) && QuietReady(states[k], v) {
      InvAlong(states, acts, k);
      ReplayIsANoOp(states, acts, v, k);
    }
    SettlesQuietly(states, acts, v, w, i, j);
  }

  lemma SettlesQuietly(states: seq<State>, acts: seq<Action>, v: VideoId, w: WorkerId, i: nat, j: nat)
    requires QuietTrace(states, acts, v) && InHand(states, w, v, i, j)
    ensures OwnMoves(acts[i..j], w) <= Rank(JobOf(states[i], w).pc)
    ensures exists a :: Moves(a, w) && Enabled(states[j], a) && ReplayStep(states[j], v, a) && !Doomed(states[j], a, w, v)
    ensures Handles(states[j], w, v)
    ensures j < |acts| && !HasJob(states[j + 1], w) && acts[j] != Crash(w) ==>
              && Moves(acts[j], w)
              && (states[j + 1].broker == states[j].broker || states[j + 1].broker == Removed(states[j].broker, JobOf(states[j], w).msg))
  {
    RanksFall(states, acts, v, w, i, j);
    AtMostTheRank(states, acts, w, i, j);
    DeliveryCanMove(states[j], v, w);
    if j < |acts| && acts[j] != Crash(w) {
      DeliveryMovesOn(states[j], v, w, acts[j]);
    }
  }
}
