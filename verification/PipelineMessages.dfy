/**
 What every run of the pipeline keeps about messages: no published event is lost,
 retry counts stay in range, and a dead letter has used up its retries or had its
 republish or ack raise.
 */
module PipelineMessages {
  import opened VideoTable
  import opened Pipeline
  import opened PipelineStore

  ghost predicate MessageOk(b: Broker, m: MessageId) {
    && m in b.msgs
    && m < b.next
    && b.msgs[m].event in b.published
    && b.msgs[m].body == b.published[b.msgs[m].event]
    && b.msgs[m].count <= MAX_RETRIES
    && (b.msgs[m].place == RetryQueue ==> b.msgs[m].count >= 1)
    && (b.msgs[m].place == DeadLetter(false) ==> b.msgs[m].count >= MAX_RETRIES)
  }

  /** A message the broker still answers for: not an original whose retry copy was taken. */
  predicate Carries(msg: Message) {
    msg.place.Unacked? ==> !msg.place.spent
  }

  ghost predicate EventOk(b: Broker, e: EventId) {
    || e in b.returned
    || (e in b.carrier && b.carrier[e] in b.msgs && b.msgs[b.carrier[e]].event == e && Carries(b.msgs[b.carrier[e]]))
  }

  ghost predicate QueuesOk(b: Broker) {
    && (forall m :: m in b.msgs ==> MessageOk(b, m))
    && (forall e :: e in b.published ==> EventOk(b, e))
    && b.returned <= b.published.Keys
  }

  /** Pcs at which the retry copy of the job's message may have been taken. */
  predicate AfterRepublish(pc: Pc) {
    pc == Republished || pc == Failing(true) || pc == Rejecting(true)
  }

  /** A job matches the message it was delivered with, and a live session still holds that message. */
  ghost predicate HandleOk(b: Broker, w: WorkerId, connected: bool, j: Job) {
    && j.event in b.published
    && j.body == b.published[j.event]
    && j.count <= MAX_RETRIES
    && (j.pc == Returned ==> j.event in b.returned)
    && (j.pc == Failing(false) || j.pc == Rejecting(false) ==> j.count >= MAX_RETRIES)
    && (connected ==>
          && Holds(b, w, j.msg)
          && b.msgs[j.msg].event == j.event
          && b.msgs[j.msg].count == j.count
          && (b.msgs[j.msg].place.spent ==> AfterRepublish(j.pc)))
  }

  ghost predicate HandlesOk(s: State) {
    forall w :: HasJob(s, w) ==> HandleOk(s.broker, w, s.workers[w].connected, JobOf(s, w))
  }

  /** Only a session that exists holds messages, and prefetch_count=1 means one at a time. */
  ghost predicate HoldersOk(s: State) {
    && (forall m :: m in s.broker.msgs && s.broker.msgs[m].place.Unacked? ==>
          s.broker.msgs[m].place.worker in s.workers && s.workers[s.broker.msgs[m].place.worker].connected)
    && (forall m, n ::
          (m in s.broker.msgs && n in s.broker.msgs && m != n && s.broker.msgs[m].place.Unacked? && s.broker.msgs[n].place.Unacked?) ==>
          s.broker.msgs[m].place.worker != s.broker.msgs[n].place.worker)
  }

  /** A processed well-formed event belongs to a video that had been ready or failed. */
  ghost predicate ReturnsOk(s: State) {
    forall e :: e in s.broker.returned && e in s.broker.published && s.broker.published[e].Event? ==>
      s.broker.published[e].video in s.store.everReady + s.store.everFailed
  }

  ghost predicate MessageInv(s: State) {
    && QueuesOk(s.broker)
    && HandlesOk(s)
    && HoldersOk(s)
    && ReturnsOk(s)
  }

  // ----- owners -----

  lemma PublishKeeps(s: State, e: EventId, body: Body)
    requires MessageInv(s) && OwnerEnabled(s, Publish(e, body))
    ensures MessageInv(ApplyOwner(s, Publish(e, body)))
  {
    var t := ApplyOwner(s, Publish(e, body));
    forall m | m in t.broker.msgs ensures MessageOk(t.broker, m) {
      if m in s.broker.msgs {
        assert MessageOk(s.broker, m);
      }
    }
    assert s.broker.next in s.broker.msgs ==> MessageOk(s.broker, s.broker.next);
    forall x | x in t.broker.published ensures EventOk(t.broker, x) {
      if x != e {
        assert EventOk(s.broker, x);
      }
    }
    forall w | HasJob(t, w) ensures HandleOk(t.broker, w, t.workers[w].connected, JobOf(t, w)) {
      assert HasJob(s, w) && HandleOk(s.broker, w, s.workers[w].connected, JobOf(s, w));
    }
  }

  lemma OwnerKeepsMessages(s: State, a: Action)
    requires MessageInv(s) && StoreInv(s) && OwnerEnabled(s, a)
    ensures MessageInv(ApplyOwner(s, a))
  {
    var t := ApplyOwner(s, a);
    if a.Publish? {
      PublishKeeps(s, a.e, a.body);
    } else {
      PastStays(s, a);
      assert t.broker == s.broker && t.workers == s.workers;
    }
  }

  // ----- the broker -----

  lemma RequeueKeeps(s: State, w: WorkerId)
    requires MessageInv(s) && w in s.workers
    ensures MessageInv(Lose(s, w))
  {
  }

  lemma TtlKeeps(s: State, m: MessageId)
    requires MessageInv(s) && BrokerEnabled(s, ExpireTtl(m))
    ensures MessageInv(ApplyBroker(s, ExpireTtl(m)))
  {
    TtlQueues(s.broker, m);
    TtlHandles(s, m);
  }

  lemma TtlQueues(b: Broker, m: MessageId)
    requires QueuesOk(b) && m in b.msgs
    ensures QueuesOk(Moved(b, m, MainQueue))
  {
  }

  lemma TtlHandles(s: State, m: MessageId)
    requires HandlesOk(s) && BrokerEnabled(s, ExpireTtl(m))
    ensures HandlesOk(ApplyBroker(s, ExpireTtl(m)))
  {
    var t := ApplyBroker(s, ExpireTtl(m));
    forall u | HasJob(t, u) ensures HandleOk(t.broker, u, t.workers[u].connected, JobOf(t, u)) {
      assert HasJob(s, u) && HandleOk(s.broker, u, s.workers[u].connected, JobOf(s, u));
    }
  }

  lemma DeliverKeeps(s: State, w: WorkerId, m: MessageId)
    requires MessageInv(s) && BrokerEnabled(s, Deliver(w, m))
    ensures MessageInv(ApplyBroker(s, Deliver(w, m)))
  {
    assert MessageOk(s.broker, m);
    DeliverHolders(s, w, m);
    DeliverQueues(s, w, m);
    DeliverHandles(s, w, m);
  }

  lemma DeliverHandles(s: State, w: WorkerId, m: MessageId)
    requires HandlesOk(s) && MessageOk(s.broker, m) && BrokerEnabled(s, Deliver(w, m))
    ensures HandlesOk(ApplyBroker(s, Deliver(w, m)))
  {
    var t := ApplyBroker(s, Deliver(w, m));
    forall u | HasJob(t, u) ensures HandleOk(t.broker, u, t.workers[u].connected, JobOf(t, u)) {
      assert u != w ==> HasJob(s, u) && HandleOk(s.broker, u, s.workers[u].connected, JobOf(s, u));
    }
  }

  lemma DeliverHolders(s: State, w: WorkerId, m: MessageId)
    requires HoldersOk(s) && BrokerEnabled(s, Deliver(w, m))
    ensures HoldersOk(ApplyBroker(s, Deliver(w, m)))
  {
  }

  lemma DeliverQueues(s: State, w: WorkerId, m: MessageId)
    requires QueuesOk(s.broker) && BrokerEnabled(s, Deliver(w, m))
    ensures QueuesOk(ApplyBroker(s, Deliver(w, m)).broker)
  {
  }

  lemma BrokerKeepsMessages(s: State, a: Action)
    requires MessageInv(s) && BrokerEnabled(s, a)
    ensures MessageInv(ApplyBroker(s, a))
  {
    match a
    case ExpireTtl(m) => TtlKeeps(s, m);
    case Connect(w) =>
    case Deliver(w, m) => DeliverKeeps(s, w, m);
    case Disconnect(w) => RequeueKeeps(s, w);
    case Crash(w) =>
      RequeueKeeps(s, w);
      DropKeeps(Lose(s, w), w);
  }

  /** A session may drop its job at any time; the broker keeps the message. */
  lemma DropKeeps(s: State, w: WorkerId)
    requires MessageInv(s) && w in s.workers
    ensures MessageInv(WithoutJob(s, w))
  {
  }

  // ----- process_message -----

  /** Moving w to a pc from which neither an ack nor a republish has happened. */
  lemma PcKeeps(s: State, w: WorkerId, pc: Pc)
    requires MessageInv(s) && HasJob(s, w)
    requires pc == Returned ==> JobOf(s, w).event in s.broker.returned
    requires pc == Failing(false) || pc == Rejecting(false) ==> JobOf(s, w).count >= MAX_RETRIES
    requires AfterRepublish(JobOf(s, w).pc) ==> AfterRepublish(pc)
    ensures MessageInv(WithPc(s, w, pc))
  {
  }

  lemma NoteKeeps(s: State, w: WorkerId)
    requires MessageInv(s) && HasJob(s, w)
    requires JobOf(s, w).body.Event? ==> JobOf(s, w).body.video in s.store.everReady + s.store.everFailed
    ensures MessageInv(NoteReturn(s, JobOf(s, w).event))
  {
  }

  /** MessageInv looks at the store only through what was ever ready or failed. */
  lemma StoreIrrelevant(s: State, t: State)
    requires MessageInv(s) && t.broker == s.broker && t.workers == s.workers
    requires s.store.everReady <= t.store.everReady && s.store.everFailed <= t.store.everFailed
    ensures MessageInv(t)
  {
  }

  /** process_message returning: the event is noted, then the session stands before the ack. */
  lemma ReturnKeeps(s: State, w: WorkerId)
    requires MessageInv(s) && HasJob(s, w) && !AfterRepublish(JobOf(s, w).pc)
    requires JobOf(s, w).body.Event? ==> JobOf(s, w).body.video in s.store.everReady + s.store.everFailed
    ensures MessageInv(NoteReturn(WithPc(s, w, Returned), JobOf(s, w).event))
  {
    var e := JobOf(s, w).event;
    NoteKeeps(s, w);
    PcKeeps(NoteReturn(s, e), w, Returned);
    assert WithPc(NoteReturn(s, e), w, Returned) == NoteReturn(WithPc(s, w, Returned), e);
  }

  lemma WorkKeepsMessages(s: State, a: Action)
    requires MessageInv(s) && StoreInv(s) && WorkEnabled(s, a)
    ensures MessageInv(ApplyWork(s, a))
  {
    if a.RejectBody? || a.ReadStatus? || a.CleanRaw? {
      ReturningKeeps(s, a);
    } else {
      WorkingKeeps(s, a);
    }
  }

  lemma ReturningKeeps(s: State, a: Action)
    requires MessageInv(s) && StoreInv(s) && WorkEnabled(s, a)
    requires a.RejectBody? || a.ReadStatus? || a.CleanRaw?
    ensures MessageInv(ApplyWork(s, a))
  {
    match a
    case RejectBody(w) => ReturnKeeps(s, w);
    case ReadStatus(w, ok) =>
      var v := JobOf(s, w).body.video;
      if ok && (s.store.table.status[v] == Ready || s.store.table.status[v] == VideoTable.Failed) {
        ReturnKeeps(s, w);
      } else {
        PcKeeps(s, w, Accepted);
      }
    case CleanRaw(w, keep, removed) =>
      assert JobOk(s.store, s.net, JobOf(s, w));
      ReturnKeeps(s, w);
      StoreIrrelevant(NoteReturn(WithPc(s, w, Returned), JobOf(s, w).event), ApplyWork(s, a));
  }

  /** The steps inside process_message that do not end it move one session's pc, and no message. */
  lemma WorkingMoves(s: State, a: Action) returns (w: WorkerId, pc: Pc)
    requires WorkEnabled(s, a)
    requires !a.RejectBody? && !a.ReadStatus? && !a.CleanRaw?
    ensures HasJob(s, w) && !AfterRepublish(JobOf(s, w).pc)
    ensures pc != Returned && pc != Failing(false) && pc != Rejecting(false)
    ensures ApplyWork(s, a).broker == s.broker && ApplyWork(s, a).workers == WithPc(s, w, pc).workers
    ensures ApplyWork(s, a).store.everReady == s.store.everReady && ApplyWork(s, a).store.everFailed == s.store.everFailed
  {
    w := a.w;
    pc := JobOf(ApplyWork(s, a), w).pc;
  }

  lemma WorkingKeeps(s: State, a: Action)
    requires MessageInv(s) && WorkEnabled(s, a)
    requires !a.RejectBody? && !a.ReadStatus? && !a.CleanRaw?
    ensures MessageInv(ApplyWork(s, a))
  {
    var w, pc := WorkingMoves(s, a);
    MoveKeeps(s, ApplyWork(s, a), w, pc);
  }

  lemma MoveKeeps(s: State, t: State, w: WorkerId, pc: Pc)
    requires MessageInv(s) && HasJob(s, w) && !AfterRepublish(JobOf(s, w).pc)
    requires pc != Returned && pc != Failing(false) && pc != Rejecting(false)
    requires t.broker == s.broker && t.workers == WithPc(s, w, pc).workers
    requires t.store.everReady == s.store.everReady && t.store.everFailed == s.store.everFailed
    ensures MessageInv(t)
  {
    PcKeeps(s, w, pc);
    StoreIrrelevant(WithPc(s, w, pc), t);
  }

  // ----- handle_message -----

  /** The broker settles a message this session holds and lets go of its job. */
  lemma RemoveKeeps(s: State, w: WorkerId)
    requires MessageInv(s) && HasJob(s, w) && Holds(s.broker, w, JobOf(s, w).msg)
    requires JobOf(s, w).event in s.broker.returned || s.broker.msgs[JobOf(s, w).msg].place.spent
    requires s.workers[w].connected
    ensures MessageInv(WithoutJob(s, w).(broker := Removed(s.broker, JobOf(s, w).msg)))
  {
  }

  /** An ack that was taken but raised: the message is gone and so is the session's connection. */
  lemma RemoveAndLose(s: State, w: WorkerId, pc: Pc)
    requires MessageInv(s) && HasJob(s, w) && Holds(s.broker, w, JobOf(s, w).msg)
    requires JobOf(s, w).event in s.broker.returned || s.broker.msgs[JobOf(s, w).msg].place.spent
    requires s.workers[w].connected
    requires pc == Raised || pc == Failing(true)
    ensures MessageInv(Lose(WithPc(s, w, pc).(broker := Removed(s.broker, JobOf(s, w).msg)), w))
  {
    var m := JobOf(s, w).msg;
    var t := Lose(WithPc(s, w, pc).(broker := Removed(s.broker, m)), w);
    assert HandleOk(s.broker, w, s.workers[w].connected, JobOf(s, w));
    forall n | n in t.broker.msgs ensures MessageOk(t.broker, n) {
      assert MessageOk(s.broker, n);
    }
    forall e | e in t.broker.published ensures EventOk(t.broker, e) {
      assert EventOk(s.broker, e);
    }
    forall u | HasJob(t, u) ensures HandleOk(t.broker, u, t.workers[u].connected, JobOf(t, u)) {
      assert HasJob(s, u) && HandleOk(s.broker, u, s.workers[u].connected, JobOf(s, u));
    }
  }

  /** The retry copy becomes the carrier of its event; the original no longer counts. */
  lemma TakeRetryQueues(b: Broker, w: WorkerId, j: Job)
    requires QueuesOk(b) && Holds(b, w, j.msg) && b.msgs[j.msg].event == j.event
    requires j.event in b.published && j.body == b.published[j.event] && j.count < MAX_RETRIES
    ensures QueuesOk(TakeRetry(b, w, j)) && b.next !in b.msgs
  {
  }

  lemma TakeRetryKeeps(s: State, w: WorkerId, pc: Pc)
    requires MessageInv(s) && HasJob(s, w) && Holds(s.broker, w, JobOf(s, w).msg)
    requires s.workers[w].connected && JobOf(s, w).count < MAX_RETRIES
    requires pc == Republished || pc == Failing(true)
    ensures MessageInv(WithPc(s, w, pc).(broker := TakeRetry(s.broker, w, JobOf(s, w))))
  {
    assert HandleOk(s.broker, w, s.workers[w].connected, JobOf(s, w));
    TakeRetryQueues(s.broker, w, JobOf(s, w));
    TakeRetryHandles(s, w, pc);
    TakeRetryHolders(s, w, pc);
  }

  lemma TakeRetryHandles(s: State, w: WorkerId, pc: Pc)
    requires HandlesOk(s) && HasJob(s, w) && Holds(s.broker, w, JobOf(s, w).msg) && s.broker.next !in s.broker.msgs
    requires s.workers[w].connected && (pc == Republished || pc == Failing(true))
    ensures HandlesOk(WithPc(s, w, pc).(broker := TakeRetry(s.broker, w, JobOf(s, w))))
  {
  }

  lemma TakeRetryHolders(s: State, w: WorkerId, pc: Pc)
    requires HoldersOk(s) && HasJob(s, w) && Holds(s.broker, w, JobOf(s, w).msg)
    requires s.workers[w].connected
    ensures HoldersOk(WithPc(s, w, pc).(broker := TakeRetry(s.broker, w, JobOf(s, w))))
  {
  }

  lemma NackKeeps(s: State, w: WorkerId)
    requires MessageInv(s) && HasJob(s, w) && JobOf(s, w).pc.Rejecting? && Holds(s.broker, w, JobOf(s, w).msg)
    requires s.workers[w].connected
    ensures MessageInv(WithoutJob(s, w).(broker := Moved(s.broker, JobOf(s, w).msg, DeadLetter(JobOf(s, w).pc.raised))))
  {
    var j := JobOf(s, w);
    assert HandleOk(s.broker, w, s.workers[w].connected, j);
    NackQueues(s.broker, j);
    NackHandles(s, w);
    NackHolders(s, w);
  }

  lemma NackQueues(b: Broker, j: Job)
    requires QueuesOk(b) && j.msg in b.msgs && j.pc.Rejecting? && b.msgs[j.msg].count == j.count
    requires j.pc.raised || j.count >= MAX_RETRIES
    ensures QueuesOk(Moved(b, j.msg, DeadLetter(j.pc.raised)))
  {
    var c := Moved(b, j.msg, DeadLetter(j.pc.raised));
    assert MessageOk(b, j.msg);
    forall e | e in c.published ensures EventOk(c, e) {
      assert EventOk(b, e);
    }
  }

  lemma NackHandles(s: State, w: WorkerId)
    requires HandlesOk(s) && HasJob(s, w) && JobOf(s, w).pc.Rejecting? && Holds(s.broker, w, JobOf(s, w).msg)
    ensures HandlesOk(WithoutJob(s, w).(broker := Moved(s.broker, JobOf(s, w).msg, DeadLetter(JobOf(s, w).pc.raised))))
  {
    var t := WithoutJob(s, w).(broker := Moved(s.broker, JobOf(s, w).msg, DeadLetter(JobOf(s, w).pc.raised)));
    forall u | HasJob(t, u) ensures HandleOk(t.broker, u, t.workers[u].connected, JobOf(t, u)) {
      assert HasJob(s, u) && HandleOk(s.broker, u, s.workers[u].connected, JobOf(s, u));
    }
  }

  lemma NackHolders(s: State, w: WorkerId)
    requires HoldersOk(s) && HasJob(s, w) && JobOf(s, w).pc.Rejecting? && JobOf(s, w).msg in s.broker.msgs
    ensures HoldersOk(WithoutJob(s, w).(broker := Moved(s.broker, JobOf(s, w).msg, DeadLetter(JobOf(s, w).pc.raised))))
  {
  }

  lemma SettleKeepsMessages(s: State, a: Action)
    requires MessageInv(s) && SettleEnabled(s, a)
    ensures MessageInv(ApplySettle(s, a))
  {
    match a
    case SkipAck(w) => DropKeeps(s, w);
    case Ack(w, call) =>
      assert HandleOk(s.broker, w, s.workers[w].connected, JobOf(s, w));
      if call.taken && call.raises {
        RemoveAndLose(s, w, Raised);
      } else if call.taken {
        RemoveKeeps(s, w);
      } else if call.raises {
        PcKeeps(s, w, Raised);
      } else {
        DropKeeps(s, w);
      }
    case Republish(w, call) =>
      var pc := if call.raises then Failing(true) else Republished;
      if call.taken {
        TakeRetryKeeps(s, w, pc);
      } else {
        PcKeeps(s, w, pc);
      }
    case AckOriginal(w, call) =>
      if call.taken && call.raises {
        RemoveAndLose(s, w, Failing(true));
      } else if call.taken {
        RemoveKeeps(s, w);
      } else if call.raises {
        PcKeeps(s, w, Failing(true));
      } else {
        DropKeeps(s, w);
      }
    case PatchFailed(w) =>
      var j := JobOf(s, w);
      assert HandleOk(s.broker, w, s.workers[w].connected, j);
      PcKeeps(s, w, Rejecting(j.pc.Failing? && j.pc.raised));
      StoreIrrelevant(WithPc(s, w, Rejecting(j.pc.Failing? && j.pc.raised)), ApplySettle(s, a));
    case Nack(w, call) =>
      if call.taken {
        NackKeeps(s, w);
      } else {
        DropKeeps(s, w);
      }
  }

  lemma StepKeepsMessages(s: State, a: Action)
    requires MessageInv(s) && StoreInv(s) && Enabled(s, a)
    ensures MessageInv(Apply(s, a))
  {
    if OwnerEnabled(s, a) {
      OwnerKeepsMessages(s, a);
    } else if BrokerEnabled(s, a) {
      BrokerKeepsMessages(s, a);
    } else if WorkEnabled(s, a) {
      WorkKeepsMessages(s, a);
    } else {
      SettleKeepsMessages(s, a);
    }
  }

  lemma {:induction false} RunKeepsMessages(s: State, acts: seq<Action>, t: State)
    requires MessageInv(s) && StoreInv(s) && Run(s, acts, t)
    ensures MessageInv(t) && StoreInv(t)
    decreases acts
  {
    if acts != [] {
      StepKeepsMessages(s, acts[0]);
      StepKeeps(s, acts[0]);
      RunKeepsMessages(Apply(s, acts[0]), acts[1..], t);
    }
  }

  lemma ReachableMessages(s: State)
    requires Reachable(s)
    ensures MessageInv(s) && StoreInv(s)
  {
    var acts :| Run(EMPTY, acts, s);
    RunKeepsMessages(EMPTY, acts, s);
  }

  // ----- main results -----

  /**
   Message conservation: in every reachable state, through crashes between
   republish and ack, acks that raise and redeliveries, each published event is
   carried by a message in the main queue, unacknowledged at a live session, in the
   retry queue or dead-lettered, or process_message returned for it; and when it
   returned for a well-formed body, that video had been committed ready or failed.
   */
  lemma EventsAreConserved(s: State, e: EventId)
    requires Reachable(s) && e in s.broker.published
    ensures
      || e in s.broker.returned
      || exists m :: m in s.broker.msgs && s.broker.msgs[m].event == e && s.broker.msgs[m].body == s.broker.published[e]
                     && (s.broker.msgs[m].place.Unacked? ==>
                           s.broker.msgs[m].place.worker in s.workers && s.workers[s.broker.msgs[m].place.worker].connected)
    ensures e in s.broker.returned && s.broker.published[e].Event? ==>
              s.broker.published[e].video in s.store.everReady || s.broker.published[e].video in s.store.everFailed
  {
    ReachableMessages(s);
    assert EventOk(s.broker, e);
    if e !in s.broker.returned {
      var m := s.broker.carrier[e];
      assert MessageOk(s.broker, m);
    }
  }

  /**
   What the broker does with a call it takes, whether or not the caller hears of it: an ack
   takes the message away, a nack without requeue dead-letters it, a republish leaves it and
   adds the retry copy with the count raised by one.  No other message changes, but for those
   a lost connection puts back into the main queue.
   */
  lemma TakenCalls(s: State, w: WorkerId, raises: bool)
    requires MessageInv(s) && HasJob(s, w)
    ensures var call, j := Call(true, raises), JobOf(s, w);
            && (SettleEnabled(s, Ack(w, call)) ==>
                  ApplySettle(s, Ack(w, call)).broker.msgs == (if raises then Requeue(s.broker, w).msgs else s.broker.msgs) - {j.msg})
            && (SettleEnabled(s, AckOriginal(w, call)) ==>
                  ApplySettle(s, AckOriginal(w, call)).broker.msgs == (if raises then Requeue(s.broker, w).msgs else s.broker.msgs) - {j.msg})
            && (SettleEnabled(s, Nack(w, call)) ==>
                  ApplySettle(s, Nack(w, call)).broker.msgs ==
                  s.broker.msgs[j.msg := Message(j.event, j.body, j.count, DeadLetter(j.pc.raised))])
            && (SettleEnabled(s, Republish(w, call)) ==>
                  && s.broker.next !in s.broker.msgs
                  && ApplySettle(s, Republish(w, call)).broker.msgs ==
                     s.broker.msgs[j.msg := Message(j.event, j.body, j.count, Unacked(w, true))]
                                  [s.broker.next := Message(j.event, j.body, j.count + 1, RetryQueue)])
  {
    hide SettleEnabled, ApplySettle, MessageInv;
    if SettleEnabled(s, Ack(w, Call(true, raises))) {
      TakenAck(s, w, raises);
    }
    if SettleEnabled(s, AckOriginal(w, Call(true, raises))) {
      TakenAckOriginal(s, w, raises);
    }
    if SettleEnabled(s, Nack(w, Call(true, raises))) {
      TakenNack(s, w, raises);
    }
    if SettleEnabled(s, Republish(w, Call(true, raises))) {
      TakenRepublish(s, w, raises);
    }
  }

  lemma TakenAck(s: State, w: WorkerId, raises: bool)
    requires HasJob(s, w) && SettleEnabled(s, Ack(w, Call(true, raises)))
    ensures ApplySettle(s, Ack(w, Call(true, raises))).broker.msgs ==
            (if raises then Requeue(s.broker, w).msgs else s.broker.msgs) - {JobOf(s, w).msg}
  {
  }

  lemma TakenAckOriginal(s: State, w: WorkerId, raises: bool)
    requires HasJob(s, w) && SettleEnabled(s, AckOriginal(w, Call(true, raises)))
    ensures ApplySettle(s, AckOriginal(w, Call(true, raises))).broker.msgs ==
            (if raises then Requeue(s.broker, w).msgs else s.broker.msgs) - {JobOf(s, w).msg}
  {
  }

  lemma TakenNack(s: State, w: WorkerId, raises: bool)
    requires MessageInv(s) && HasJob(s, w) && SettleEnabled(s, Nack(w, Call(true, raises)))
    ensures var j := JobOf(s, w);
            ApplySettle(s, Nack(w, Call(true, raises))).broker.msgs ==
            s.broker.msgs[j.msg := Message(j.event, j.body, j.count, DeadLetter(j.pc.raised))]
  {
    assert HandleOk(s.broker, w, s.workers[w].connected, JobOf(s, w));
  }

  lemma TakenRepublish(s: State, w: WorkerId, raises: bool)
    requires MessageInv(s) && HasJob(s, w) && SettleEnabled(s, Republish(w, Call(true, raises)))
    ensures var j := JobOf(s, w);
            && s.broker.next !in s.broker.msgs
            && ApplySettle(s, Republish(w, Call(true, raises))).broker.msgs ==
               s.broker.msgs[j.msg := Message(j.event, j.body, j.count, Unacked(w, true))]
                            [s.broker.next := Message(j.event, j.body, j.count + 1, RetryQueue)]
  {
    assert HandleOk(s.broker, w, s.workers[w].connected, JobOf(s, w));
    assert s.broker.next in s.broker.msgs ==> MessageOk(s.broker, s.broker.next);
  }

  /** Retry counts: 1..3 in the retry queue, and a dead letter reached 3 or its republish or ack raised. */
  lemma RetryCountsInRange(s: State, m: MessageId)
    requires Reachable(s) && m in s.broker.msgs
    ensures s.broker.msgs[m].count <= 3
    ensures s.broker.msgs[m].place == RetryQueue ==> 1 <= s.broker.msgs[m].count <= 3
    ensures s.broker.msgs[m].place.DeadLetter? ==> s.broker.msgs[m].count == 3 || s.broker.msgs[m].place.raised
  {
    ReachableMessages(s);
    assert MessageOk(s.broker, m);
  }
}
