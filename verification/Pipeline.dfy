/**
 Upload, transcode, publish: the services as one transition system.

 Any number of consumer sessions, status requests, owner deletes, uploads and
 reconciler writes interleave, one atomic action at a time.  Atomic are: one
 metadata transaction, one object-store call, one broker-side effect of an AMQP
 frame.  A status request is in flight from the moment it is sent; it may commit
 at any later time, also after its sender timed out, or never.  A session's
 publish and ack travel on one channel in order, so the broker never settles a
 message whose earlier republish it has not taken.
 */
module Pipeline {
  import opened Common
  import opened VideoTable
  import opened Ladder

  const MAX_RETRIES: nat := 3

  type WorkerId = nat
  type MessageId = nat
  type EventId = nat
  type RequestId = nat
  type DeleteId = nat

  // ----- state -----

  /** A message body: a well-formed event, or one without video_id/s3_key that may still name a video. */
  datatype Body = Event(video: VideoId) | Malformed(mention: Option<VideoId>)

  /** Where the broker keeps a message.  `spent` notes that its retry copy was taken by the broker. */
  datatype Place =
    | MainQueue
    | Unacked(worker: WorkerId, spent: bool)
    | RetryQueue
    | DeadLetter(raised: bool)

  datatype Message = Message(event: EventId, body: Body, count: nat, place: Place)

  /** Where a session stands in handle_message and, inside it, process_message. */
  datatype Pc =
    | Start
    | Accepted                                             // the status read allowed the work
    | Fetching                                             // stat, download, probe
    | Encoding(ladder: seq<Rendition>, done: nat)          // ladder[..done] uploaded
    | Reporting(ladder: seq<Rendition>, done: nat)         // incremental update due
    | Announcing(ladder: seq<Rendition>)                   // ready update due
    | AwaitingReady(request: RequestId)
    | Cleaning                                             // ready confirmed, raw removal due
    | Returned                                             // process_message returned
    | Raised                                               // in the except block
    | Republished                                          // basic_publish returned
    | Failing(raised: bool)                                // the failed update is due
    | Rejecting(raised: bool)                              // basic_nack is due

  datatype Job = Job(msg: MessageId, event: EventId, body: Body, count: nat, pc: Pc)

  /** One consumer session: a connection and the message it is handling. */
  datatype Worker = Worker(connected: bool, job: Option<Job>)

  datatype Request = Request(video: VideoId, status: Status, renditions: seq<Rendition>, committed: bool)

  /** A DELETE handler: the keys it read, and whether the row is gone. */
  datatype Deletion = Deletion(video: VideoId, keys: set<Key>, rowGone: bool)

  /** Tables and bucket, with what happened to each video so far. */
  datatype Store = Store(
    table: Table,
    bucket: set<Key>,
    created: set<VideoId>,
    deleted: set<VideoId>,
    everReady: set<VideoId>,
    everFailed: set<VideoId>,
    readyLadder: map<VideoId, seq<Rendition>>)

  /** Queues, with what was published, where each event is carried, and what was returned or delivered. */
  datatype Broker = Broker(
    msgs: map<MessageId, Message>,
    next: MessageId,
    published: map<EventId, Body>,
    carrier: map<EventId, MessageId>,
    returned: set<EventId>,
    deliveries: map<EventId, nat>)

  datatype Net = Net(requests: map<RequestId, Request>, next: RequestId)

  datatype State = State(
    store: Store,
    broker: Broker,
    net: Net,
    deletions: map<DeleteId, Deletion>,
    workers: map<WorkerId, Worker>)

  const EMPTY := State(
    Store(Table(map[], map[]), {}, {}, {}, {}, {}, map[]),
    Broker(map[], 0, map[], map[], {}, map[]),
    Net(map[], 0),
    map[],
    map[])

  // ----- actions -----

  /** What became of one AMQP call: `taken` by the broker, `raises` in the caller. */
  datatype Call = Call(taken: bool, raises: bool)

  datatype Action =
    // owners, upload service, reconciler
    | CreateVideo(v: VideoId)
    | PutRaw(v: VideoId)
    | Publish(e: EventId, body: Body)
    | ReconcilerFails(v: VideoId)
    | BeginDelete(d: DeleteId, v: VideoId, fetched: bool)
    | DeleteRow(d: DeleteId)
    | DeleteObject(d: DeleteId, k: Key)
    // metadata
    | Commit(r: RequestId)
    // broker
    | ExpireTtl(m: MessageId)
    | Connect(w: WorkerId)
    | Deliver(w: WorkerId, m: MessageId)
    | Disconnect(w: WorkerId)
    | Crash(w: WorkerId)
    // process_message
    | RejectBody(w: WorkerId)
    | ReadStatus(w: WorkerId, ok: bool)
    | PatchProcessing(w: WorkerId)
    | Fetch(w: WorkerId, height: Option<int>)
    | RaiseInWork(w: WorkerId)
    | PutRendition(w: WorkerId, raises: bool)
    | PatchProgress(w: WorkerId)
    | PatchReady(w: WorkerId)
    | ReadyAnswer(w: WorkerId, ok: bool)
    | CleanRaw(w: WorkerId, keep: bool, removed: bool)
    // handle_message
    | SkipAck(w: WorkerId)
    | Ack(w: WorkerId, call: Call)
    | Republish(w: WorkerId, call: Call)
    | AckOriginal(w: WorkerId, call: Call)
    | PatchFailed(w: WorkerId)
    | Nack(w: WorkerId, call: Call)

  // ----- reading the state -----

  predicate HasJob(s: State, w: WorkerId) {
    w in s.workers && s.workers[w].job.Some?
  }

  function JobOf(s: State, w: WorkerId): Job
    requires HasJob(s, w)
  {
    s.workers[w].job.value
  }

  predicate At(s: State, w: WorkerId, pc: Pc) {
    HasJob(s, w) && JobOf(s, w).pc == pc
  }

  /** The broker still has the job's message unacknowledged on this session. */
  predicate Holds(b: Broker, w: WorkerId, m: MessageId) {
    m in b.msgs && b.msgs[m].place.Unacked? && b.msgs[m].place.worker == w
  }

  /** prefetch_count=1: a session with an unacknowledged message gets no other. */
  predicate Busy(b: Broker, w: WorkerId) {
    exists m :: m in b.msgs && Holds(b, w, m)
  }

  /** A call on a dead session is never taken. */
  predicate CallPossible(s: State, w: WorkerId, c: Call) {
    c.taken ==> w in s.workers && s.workers[w].connected
  }

  /** The video a handler marks failed: data.get("video_id") of a body that parses. */
  function Mentioned(b: Body): Option<VideoId> {
    match b
    case Event(v) => Some(v)
    case Malformed(m) => m
  }

  // ----- pieces of the next state -----

  function WithPc(s: State, w: WorkerId, pc: Pc): State
    requires HasJob(s, w)
  {
    s.(workers := s.workers[w := s.workers[w].(job := Some(JobOf(s, w).(pc := pc)))])
  }

  function WithoutJob(s: State, w: WorkerId): State
    requires w in s.workers
  {
    s.(workers := s.workers[w := s.workers[w].(job := None)])
  }

  function Send(n: Net, v: VideoId, status: Status, renditions: seq<Rendition>): Net {
    Net(n.requests[n.next := Request(v, status, renditions, false)], n.next + 1)
  }

  /** Everything unacknowledged on w goes back to the main queue. */
  function Requeue(b: Broker, w: WorkerId): Broker {
    b.(msgs := map m | m in b.msgs :: if Holds(b, w, m) then b.msgs[m].(place := MainQueue) else b.msgs[m])
  }

  function Lose(s: State, w: WorkerId): State
    requires w in s.workers
  {
    s.(broker := Requeue(s.broker, w), workers := s.workers[w := s.workers[w].(connected := false)])
  }

  function Removed(b: Broker, m: MessageId): Broker {
    b.(msgs := b.msgs - {m})
  }

  function Moved(b: Broker, m: MessageId, p: Place): Broker
    requires m in b.msgs
  {
    b.(msgs := b.msgs[m := b.msgs[m].(place := p)])
  }

  /** process_message returned for this event. */
  function NoteReturn(s: State, e: EventId): State {
    s.(broker := s.broker.(returned := s.broker.returned + {e}))
  }

  function CommitStore(st: Store, q: Request): Store {
    var t := Update(st.table, q.video, q.status, q.renditions);
    if t.None? then st
    else if Suppressed(st.table.status[q.video], q.status) then st
    else
      st.(table := t.value,
          everReady := if q.status == Ready then st.everReady + {q.video} else st.everReady,
          everFailed := if q.status == VideoTable.Failed then st.everFailed + {q.video} else st.everFailed,
          readyLadder := if q.status == Ready then st.readyLadder[q.video := q.renditions] else st.readyLadder)
  }

  /** The keys a DELETE handler collects before it removes the row. */
  function KeysOf(t: Table, v: VideoId): set<Key> {
    {Raw(v), Thumbnail(v)} + set k | k in t.renditions && k.0 == v :: t.renditions[k].key
  }

  function VideoOf(k: Key): VideoId {
    k.video
  }

  // ----- when an action is possible -----

  predicate OwnerEnabled(s: State, a: Action) {
    match a
    case CreateVideo(v) => v !in s.store.created
    case PutRaw(v) => true
    case Publish(e, body) => e !in s.broker.published
    case ReconcilerFails(v) => true
    case BeginDelete(d, v, fetched) => d !in s.deletions && v in s.store.table.status
    case DeleteRow(d) => d in s.deletions && !s.deletions[d].rowGone
    case DeleteObject(d, k) =>
      d in s.deletions && s.deletions[d].rowGone && (k in s.deletions[d].keys || VideoOf(k) == s.deletions[d].video)
    case Commit(r) => r in s.net.requests && !s.net.requests[r].committed && s.net.requests[r].video in s.store.table.status
    case _ => false
  }

  predicate BrokerEnabled(s: State, a: Action) {
    match a
    case ExpireTtl(m) => m in s.broker.msgs && s.broker.msgs[m].place == RetryQueue
    case Connect(w) => w !in s.workers
    case Deliver(w, m) =>
      && w in s.workers && s.workers[w].connected && s.workers[w].job.None? && !Busy(s.broker, w)
      && m in s.broker.msgs && s.broker.msgs[m].place == MainQueue
    case Disconnect(w) => w in s.workers && s.workers[w].connected
    case Crash(w) => w in s.workers
    case _ => false
  }

  predicate WorkEnabled(s: State, a: Action) {
    match a
    case RejectBody(w) => At(s, w, Start) && JobOf(s, w).body.Malformed?
    case ReadStatus(w, ok) => At(s, w, Start) && JobOf(s, w).body.Event? && (ok ==> JobOf(s, w).body.video in s.store.table.status)
    case PatchProcessing(w) => At(s, w, Accepted) && JobOf(s, w).body.Event?
    case Fetch(w, height) => At(s, w, Fetching) && JobOf(s, w).body.Event? && Raw(JobOf(s, w).body.video) in s.store.bucket
    case RaiseInWork(w) => HasJob(s, w) && (JobOf(s, w).pc.Fetching? || JobOf(s, w).pc.Encoding? || JobOf(s, w).pc.Announcing?)
    case PutRendition(w, raises) => HasJob(s, w) && JobOf(s, w).pc.Encoding? && JobOf(s, w).pc.done < |JobOf(s, w).pc.ladder|
    case PatchProgress(w) => HasJob(s, w) && JobOf(s, w).body.Event? && JobOf(s, w).pc.Reporting? && JobOf(s, w).pc.done <= |JobOf(s, w).pc.ladder|
    case PatchReady(w) => HasJob(s, w) && JobOf(s, w).body.Event? && JobOf(s, w).pc.Announcing?
    case ReadyAnswer(w, ok) =>
      && HasJob(s, w) && JobOf(s, w).pc.AwaitingReady?
      && (ok ==> JobOf(s, w).pc.request in s.net.requests && s.net.requests[JobOf(s, w).pc.request].committed)
    case CleanRaw(w, keep, removed) => At(s, w, Cleaning) && JobOf(s, w).body.Event? && (keep ==> !removed)
    case _ => false
  }

  predicate SettleEnabled(s: State, a: Action) {
    match a
    case SkipAck(w) => At(s, w, Returned)
    case Ack(w, call) =>
      At(s, w, Returned) && CallPossible(s, w, call) && (call.taken ==> Holds(s.broker, w, JobOf(s, w).msg))
    case Republish(w, call) =>
      At(s, w, Raised) && JobOf(s, w).count < MAX_RETRIES && CallPossible(s, w, call)
      && (call.taken ==> Holds(s.broker, w, JobOf(s, w).msg))
    case AckOriginal(w, call) =>
      At(s, w, Republished) && CallPossible(s, w, call)
      && (call.taken ==> Holds(s.broker, w, JobOf(s, w).msg) && s.broker.msgs[JobOf(s, w).msg].place.spent)
    case PatchFailed(w) =>
      HasJob(s, w) && (JobOf(s, w).pc.Failing? || (JobOf(s, w).pc == Raised && JobOf(s, w).count >= MAX_RETRIES))
    case Nack(w, call) =>
      HasJob(s, w) && JobOf(s, w).pc.Rejecting? && CallPossible(s, w, call)
      && (call.taken ==> Holds(s.broker, w, JobOf(s, w).msg))
    case _ => false
  }

  predicate Enabled(s: State, a: Action) {
    OwnerEnabled(s, a) || BrokerEnabled(s, a) || WorkEnabled(s, a) || SettleEnabled(s, a)
  }

  // ----- what an action does -----

  function ApplyOwner(s: State, a: Action): State
    requires OwnerEnabled(s, a)
  {
    match a
    case CreateVideo(v) =>
      s.(store := s.store.(table := s.store.table.(status := s.store.table.status[v := Uploaded]), created := s.store.created + {v}))
    case PutRaw(v) => s.(store := s.store.(bucket := s.store.bucket + {Raw(v)}))
    case Publish(e, body) =>
      s.(broker := s.broker.(
           msgs := s.broker.msgs[s.broker.next := Message(e, body, 0, MainQueue)],
           next := s.broker.next + 1,
           published := s.broker.published[e := body],
           carrier := s.broker.carrier[e := s.broker.next],
           deliveries := s.broker.deliveries[e := 0]))
    case ReconcilerFails(v) => s.(net := Send(s.net, v, VideoTable.Failed, []))
    case BeginDelete(d, v, fetched) =>
      s.(deletions := s.deletions[d := Deletion(v, if fetched then KeysOf(s.store.table, v) else {}, false)])
    case DeleteRow(d) =>
      var v := s.deletions[d].video;
      s.(store := s.store.(table := Delete(s.store.table, v), deleted := s.store.deleted + {v}),
         deletions := s.deletions[d := s.deletions[d].(rowGone := true)])
    case DeleteObject(d, k) => s.(store := s.store.(bucket := s.store.bucket - {k}))
    case Commit(r) =>
      s.(store := CommitStore(s.store, s.net.requests[r]),
         net := s.net.(requests := s.net.requests[r := s.net.requests[r].(committed := true)]))
  }

  function ApplyBroker(s: State, a: Action): State
    requires BrokerEnabled(s, a)
  {
    match a
    case ExpireTtl(m) => s.(broker := Moved(s.broker, m, MainQueue))
    case Connect(w) => s.(workers := s.workers[w := Worker(true, None)])
    case Deliver(w, m) =>
      var msg := s.broker.msgs[m];
      var seen := if msg.event in s.broker.deliveries then s.broker.deliveries[msg.event] else 0;
      s.(broker := Moved(s.broker, m, Unacked(w, false)).(deliveries := s.broker.deliveries[msg.event := seen + 1]),
         workers := s.workers[w := Worker(true, Some(Job(m, msg.event, msg.body, msg.count, Start)))])
    case Disconnect(w) => Lose(s, w)
    case Crash(w) => WithoutJob(Lose(s, w), w)
  }

  function ApplyWork(s: State, a: Action): State
    requires WorkEnabled(s, a)
  {
    match a
    case RejectBody(w) => NoteReturn(WithPc(s, w, Returned), JobOf(s, w).event)
    case ReadStatus(w, ok) =>
      var v := JobOf(s, w).body.video;
      if ok && (s.store.table.status[v] == Ready || s.store.table.status[v] == VideoTable.Failed)
      then NoteReturn(WithPc(s, w, Returned), JobOf(s, w).event)
      else WithPc(s, w, Accepted)
    case PatchProcessing(w) =>
      WithPc(s, w, Fetching).(net := Send(s.net, JobOf(s, w).body.video, Processing, []))
    case Fetch(w, height) => WithPc(s, w, Encoding(LadderFor(JobOf(s, w).body.video, height), 0))
    case RaiseInWork(w) => WithPc(s, w, Raised)
    case PutRendition(w, raises) =>
      var pc := JobOf(s, w).pc;
      var next :=
        if raises then Raised
        else if pc.done + 1 < |pc.ladder| then Reporting(pc.ladder, pc.done + 1)
        else Announcing(pc.ladder);
      WithPc(s, w, next).(store := s.store.(bucket := s.store.bucket + {pc.ladder[pc.done].key}))
    case PatchProgress(w) =>
      var pc := JobOf(s, w).pc;
      WithPc(s, w, Encoding(pc.ladder, pc.done)).(net := Send(s.net, JobOf(s, w).body.video, Processing, pc.ladder[..pc.done]))
    case PatchReady(w) =>
      var pc := JobOf(s, w).pc;
      WithPc(s, w, AwaitingReady(s.net.next)).(net := Send(s.net, JobOf(s, w).body.video, Ready, pc.ladder))
    case ReadyAnswer(w, ok) => WithPc(s, w, if ok then Cleaning else Raised)
    case CleanRaw(w, keep, removed) =>
      var k := Raw(JobOf(s, w).body.video);
      NoteReturn(WithPc(s, w, Returned), JobOf(s, w).event).(
        store := if removed then s.store.(bucket := s.store.bucket - {k}) else s.store)
  }

  function ApplySettle(s: State, a: Action): State
    requires SettleEnabled(s, a)
  {
    match a
    case SkipAck(w) => WithoutJob(s, w)
    case Ack(w, call) =>
      var b := if call.taken then Removed(s.broker, JobOf(s, w).msg) else s.broker;
      if !call.raises then WithoutJob(s, w).(broker := b)
      else if call.taken then Lose(WithPc(s, w, Raised).(broker := b), w)
      else WithPc(s, w, Raised)
    case Republish(w, call) =>
      var j := JobOf(s, w);
      var b := if call.taken then TakeRetry(s.broker, w, j) else s.broker;
      WithPc(s, w, if call.raises then Failing(true) else Republished).(broker := b)
    case AckOriginal(w, call) =>
      var b := if call.taken then Removed(s.broker, JobOf(s, w).msg) else s.broker;
      if !call.raises then WithoutJob(s, w).(broker := b)
      else if call.taken then Lose(WithPc(s, w, Failing(true)).(broker := b), w)
      else WithPc(s, w, Failing(true))
    case PatchFailed(w) =>
      var j := JobOf(s, w);
      var v := Mentioned(j.body);
      var raised := j.pc.Failing? && j.pc.raised;
      WithPc(s, w, Rejecting(raised)).(net := if v.Some? then Send(s.net, v.value, VideoTable.Failed, []) else s.net)
    case Nack(w, call) =>
      var j := JobOf(s, w);
      var b := if call.taken then Moved(s.broker, j.msg, DeadLetter(j.pc.raised)) else s.broker;
      WithoutJob(s, w).(broker := b)
  }

  /** The broker takes the retry copy, with x-retry-count raised by one, and the original counts as spent. */
  function TakeRetry(b: Broker, w: WorkerId, j: Job): Broker
    requires j.msg in b.msgs
  {
    var original := b.msgs[j.msg].(place := Unacked(w, true));
    b.(msgs := b.msgs[j.msg := original][b.next := Message(j.event, j.body, j.count + 1, RetryQueue)],
       next := b.next + 1,
       carrier := b.carrier[j.event := b.next])
  }

  function Apply(s: State, a: Action): State
    requires Enabled(s, a)
  {
    if OwnerEnabled(s, a) then ApplyOwner(s, a)
    else if BrokerEnabled(s, a) then ApplyBroker(s, a)
    else if WorkEnabled(s, a) then ApplyWork(s, a)
    else ApplySettle(s, a)
  }

  // ----- runs -----

  /** acts, taken in order from s, are all possible and lead to t. */
  ghost predicate Run(s: State, acts: seq<Action>, t: State)
    decreases acts
  {
    if acts == [] then s == t
    else Enabled(s, acts[0]) && Run(Apply(s, acts[0]), acts[1..], t)
  }

  ghost predicate Reachable(s: State) {
    exists acts :: Run(EMPTY, acts, s)
  }

  /** acts takes states[0] through states[1], states[2], ... */
  ghost predicate Trace(states: seq<State>, acts: seq<Action>) {
    && |states| == |acts| + 1
    && forall i :: 0 <= i < |acts| ==> Enabled(states[i], acts[i]) && states[i + 1] == Apply(states[i], acts[i])
  }

  lemma {:induction false} RunConcat(s: State, a: seq<Action>, t: State, b: seq<Action>, u: State)
    requires Run(s, a, t) && Run(t, b, u)
    ensures Run(s, a + b, u)
    decreases a
  {
    if a == [] {
      assert a + b == b;
    } else {
      RunConcat(Apply(s, a[0]), a[1..], t, b, u);
      assert (a + b)[1..] == a[1..] + b;
    }
  }
}
