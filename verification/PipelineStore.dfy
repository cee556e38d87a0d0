/**
 What every run of the pipeline keeps about tables, bucket and in-flight status
 requests: rendition rows are backed by objects, the raw input stays until ready,
 and a ready video's table covers a whole ladder.
 */
module PipelineStore {
  import opened Common
  import opened VideoTable
  import opened Ladder
  import opened Pipeline

  // ----- the invariant -----

  ghost predicate TableOk(st: Store) {
    && (forall v :: v in st.table.status ==> v in st.created && v !in st.deleted)
    && (forall v :: v in st.created ==> v in st.table.status || v in st.deleted)
    && st.deleted <= st.created
    && (forall k :: k in st.table.renditions ==>
          && k.0 in st.table.status
          && st.table.renditions[k].quality == k.1
          && WellMade(k.0, st.table.renditions[k])
          && st.table.renditions[k].key in st.bucket)
  }

  /** What a row's status says about its past, and what its past says about its renditions. */
  ghost predicate HistoryOk(st: Store) {
    && (forall v :: v in st.table.status && st.table.status[v] == Ready ==> v in st.everReady)
    && (forall v :: v in st.table.status && st.table.status[v] == VideoTable.Failed ==> v in st.everFailed)
    && (forall v :: v in st.everReady ==> v in st.readyLadder)
    && st.readyLadder.Keys <= st.created
    && (forall v :: v in st.readyLadder ==> IsLadder(v, st.readyLadder[v]))
    && (forall v, i :: v in st.table.status && v in st.readyLadder && 0 <= i < |st.readyLadder[v]| ==>
          (v, st.readyLadder[v][i].quality) in st.table.renditions)
  }

  /** Entries a worker reports for v: well made, and uploaded unless the owner has deleted v. */
  ghost predicate EntriesOk(st: Store, v: VideoId, es: seq<Rendition>) {
    forall i :: 0 <= i < |es| ==> WellMade(v, es[i]) && (es[i].key in st.bucket || v in st.deleted)
  }

  ghost predicate RequestOk(st: Store, q: Request) {
    && EntriesOk(st, q.video, q.renditions)
    && (q.status == Ready ==> IsLadder(q.video, q.renditions))
    && (q.status == Ready && q.committed ==> q.video in st.everReady)
  }

  ghost predicate DeletionOk(st: Store, d: Deletion) {
    && d.video in st.created
    && (forall k :: k in d.keys ==> VideoOf(k) == d.video)
    && (d.rowGone ==> d.video in st.deleted)
  }

  ghost predicate PcOk(st: Store, n: Net, v: VideoId, pc: Pc) {
    match pc
    case Encoding(l, done) => IsLadder(v, l) && done < |l| && EntriesOk(st, v, l[..done])
    case Reporting(l, done) => IsLadder(v, l) && done < |l| && EntriesOk(st, v, l[..done])
    case Announcing(l) => IsLadder(v, l) && EntriesOk(st, v, l)
    case AwaitingReady(r) => r in n.requests && n.requests[r].video == v && n.requests[r].status == Ready
    case Cleaning => v in st.everReady
    case _ => true
  }

  /** Pcs that only a well-formed event reaches. */
  predicate NeedsEvent(pc: Pc) {
    pc.Accepted? || pc.Fetching? || pc.Encoding? || pc.Reporting? || pc.Announcing? || pc.AwaitingReady? || pc.Cleaning?
  }

  ghost predicate JobOk(st: Store, n: Net, j: Job) {
    && (NeedsEvent(j.pc) ==> j.body.Event?)
    && (j.body.Event? ==> PcOk(st, n, j.body.video, j.pc))
  }

  ghost predicate NetOk(st: Store, n: Net) {
    forall r :: r in n.requests ==> r < n.next && RequestOk(st, n.requests[r])
  }

  ghost predicate DeletionsOk(st: Store, ds: map<DeleteId, Deletion>) {
    forall d :: d in ds ==> DeletionOk(st, ds[d])
  }

  ghost predicate JobsOk(s: State) {
    forall w :: HasJob(s, w) ==> JobOk(s.store, s.net, JobOf(s, w))
  }

  ghost predicate StoreInv(s: State) {
    && TableOk(s.store)
    && HistoryOk(s.store)
    && NetOk(s.store, s.net)
    && DeletionsOk(s.store, s.deletions)
    && JobsOk(s)
  }

  // ----- how the store moves -----

  /** Histories grow, and a rendition object only goes when its video has been deleted. */
  ghost predicate Grows(a: Store, b: Store) {
    && a.created <= b.created
    && a.deleted <= b.deleted
    && a.everReady <= b.everReady
    && (forall k :: k in a.bucket && k !in b.bucket && k.RenditionObject? ==> k.video in b.deleted)
  }

  ghost predicate NetGrows(a: Net, b: Net) {
    forall r :: r in a.requests ==> r in b.requests && b.requests[r].video == a.requests[r].video && b.requests[r].status == a.requests[r].status
  }

  lemma EntriesStay(a: Store, b: Store, v: VideoId, es: seq<Rendition>)
    requires Grows(a, b) && EntriesOk(a, v, es)
    ensures EntriesOk(b, v, es)
  {
  }

  lemma PcStays(a: Store, b: Store, n: Net, m: Net, v: VideoId, pc: Pc)
    requires Grows(a, b) && NetGrows(n, m) && PcOk(a, n, v, pc)
    ensures PcOk(b, m, v, pc)
  {
    match pc
    case Encoding(l, done) => EntriesStay(a, b, v, l[..done]);
    case Reporting(l, done) => EntriesStay(a, b, v, l[..done]);
    case Announcing(l) => EntriesStay(a, b, v, l);
    case _ =>
  }

  /** A step that leaves every session's job alone keeps JobsOk. */
  lemma JobsStay(s: State, t: State)
    requires JobsOk(s) && Grows(s.store, t.store) && NetGrows(s.net, t.net)
    requires forall w :: HasJob(t, w) ==> HasJob(s, w) && JobOf(t, w) == JobOf(s, w)
    ensures JobsOk(t)
  {
    forall w | HasJob(t, w) ensures JobOk(t.store, t.net, JobOf(t, w)) {
      var j := JobOf(s, w);
      if j.body.Event? {
        PcStays(s.store, t.store, s.net, t.net, j.body.video, j.pc);
      }
    }
  }

  /** A step of session w alone keeps JobsOk when w's own job ends up in order. */
  lemma JobsStayBut(s: State, t: State, w: WorkerId)
    requires JobsOk(s) && Grows(s.store, t.store) && NetGrows(s.net, t.net)
    requires forall u :: u != w && HasJob(t, u) ==> HasJob(s, u) && JobOf(t, u) == JobOf(s, u)
    requires HasJob(t, w) ==> JobOk(t.store, t.net, JobOf(t, w))
    ensures JobsOk(t)
  {
  }

  lemma NetStays(a: Store, b: Store, n: Net)
    requires Grows(a, b) && NetOk(a, n)
    ensures NetOk(b, n)
  {
  }

  /** Sending a request whose entries are in order keeps NetOk. */
  lemma SendKeeps(st: Store, n: Net, v: VideoId, status: Status, es: seq<Rendition>)
    requires NetOk(st, n) && EntriesOk(st, v, es) && (status == Ready ==> IsLadder(v, es))
    ensures NetOk(st, Send(n, v, status, es)) && NetGrows(n, Send(n, v, status, es))
  {
  }

  // ----- owners, uploads, reconciler, metadata -----

  lemma CommitKeeps(s: State, r: RequestId)
    requires StoreInv(s) && OwnerEnabled(s, Commit(r))
    ensures StoreInv(ApplyOwner(s, Commit(r)))
  {
    var t := ApplyOwner(s, Commit(r));
    var q := s.net.requests[r];
    var a, b := s.store, t.store;
    assert RequestOk(a, q);
    UpdateTouchesOneVideo(a.table, q.video, q.status, q.renditions);
    assert Grows(a, b);
    CommitTable(a, q);
    CommitHistory(a, q);
    NetStays(a, b, s.net);
    assert NetOk(b, t.net) by {
      assert q.status == Ready ==> q.video in b.everReady;
      assert RequestOk(b, q.(committed := true));
    }
    JobsStay(s, t);
  }

  lemma CommitTable(a: Store, q: Request)
    requires TableOk(a) && EntriesOk(a, q.video, q.renditions) && q.video in a.table.status
    ensures TableOk(CommitStore(a, q))
  {
    var b := CommitStore(a, q);
    UpsertKeepsLast(a.table.renditions, q.video, q.renditions);
    forall k | k in b.table.renditions
      ensures k.0 in b.table.status && b.table.renditions[k].quality == k.1
      ensures WellMade(k.0, b.table.renditions[k]) && b.table.renditions[k].key in b.bucket
    {
      if !Suppressed(a.table.status[q.video], q.status) && k.0 == q.video {
        if forall i :: !LastFor(q.renditions, k.1, i) {
          NoLastMeansAbsent(q.renditions, k.1);
        } else {
          var i :| LastFor(q.renditions, k.1, i);
          assert (q.video, k.1) == k;
        }
      }
    }
  }

  lemma CommitHistory(a: Store, q: Request)
    requires TableOk(a) && HistoryOk(a) && RequestOk(a, q) && q.video in a.table.status
    ensures HistoryOk(CommitStore(a, q))
  {
    UpdateTouchesOneVideo(a.table, q.video, q.status, q.renditions);
  }

  lemma OwnerKeeps(s: State, a: Action)
    requires StoreInv(s) && OwnerEnabled(s, a)
    ensures StoreInv(ApplyOwner(s, a))
  {
    var t := ApplyOwner(s, a);
    match a
    case Commit(r) => CommitKeeps(s, r);
    case DeleteRow(d) => DeleteRowKeeps(s, d);
    case DeleteObject(d, k) =>
      assert VideoOf(k) in s.store.deleted;
      assert Grows(s.store, t.store);
      NetStays(s.store, t.store, s.net);
      JobsStay(s, t);
    case ReconcilerFails(v) =>
      SendKeeps(s.store, s.net, v, VideoTable.Failed, []);
      JobsStay(s, t);
    case CreateVideo(v) =>
      NetStays(s.store, t.store, s.net);
      CreateHistory(s.store, v);
      JobsStay(s, t);
    case PutRaw(v) =>
      NetStays(s.store, t.store, s.net);
      JobsStay(s, t);
    case Publish(e, body) => JobsStay(s, t);
    case BeginDelete(d, v, fetched) =>
      assert forall k :: k in KeysOf(s.store.table, v) ==> VideoOf(k) == v;
      JobsStay(s, t);
  }

  /** A new row has no past: a video becomes ready only after it was created. */
  lemma CreateHistory(st: Store, v: VideoId)
    requires TableOk(st) && HistoryOk(st) && v !in st.created
    ensures HistoryOk(st.(table := st.table.(status := st.table.status[v := Uploaded]), created := st.created + {v}))
  {
  }

  lemma DeleteRowKeeps(s: State, d: DeleteId)
    requires StoreInv(s) && OwnerEnabled(s, DeleteRow(d))
    ensures StoreInv(ApplyOwner(s, DeleteRow(d)))
  {
    var t := ApplyOwner(s, DeleteRow(d));
    assert DeletionOk(s.store, s.deletions[d]);
    assert Grows(s.store, t.store);
    NetStays(s.store, t.store, s.net);
    JobsStay(s, t);
  }

  // ----- the broker -----

  lemma BrokerKeeps(s: State, a: Action)
    requires StoreInv(s) && BrokerEnabled(s, a)
    ensures StoreInv(ApplyBroker(s, a))
  {
    var t := ApplyBroker(s, a);
    match a
    case ExpireTtl(m) => JobsStay(s, t);
    case Connect(w) => JobsStay(s, t);
    case Deliver(w, m) => JobsStayBut(s, t, w);
    case Disconnect(w) => JobsStay(s, t);
    case Crash(w) => JobsStay(s, t);
  }

  // ----- process_message -----

  /** A step of session w that only moves w keeps the invariant when w's job ends up in order. */
  lemma SessionMoves(s: State, t: State, w: WorkerId)
    requires StoreInv(s)
    requires t.store == s.store && t.net == s.net && t.deletions == s.deletions
    requires w in t.workers && t.workers == s.workers[w := t.workers[w]]
    requires t.workers[w].job.Some? ==> JobOk(s.store, s.net, t.workers[w].job.value)
    ensures StoreInv(t)
  {
    JobsStayBut(s, t, w);
  }

  /** The same when w also sends a request. */
  lemma SessionSends(s: State, t: State, w: WorkerId, v: VideoId, status: Status, es: seq<Rendition>)
    requires StoreInv(s)
    requires t.store == s.store && t.net == Send(s.net, v, status, es) && t.deletions == s.deletions
    requires EntriesOk(s.store, v, es) && (status == Ready ==> IsLadder(v, es))
    requires w in t.workers && t.workers == s.workers[w := t.workers[w]]
    requires t.workers[w].job.Some? ==> JobOk(s.store, t.net, t.workers[w].job.value)
    ensures StoreInv(t)
  {
    SendKeeps(s.store, s.net, v, status, es);
    JobsStayBut(s, t, w);
  }

  lemma WorkKeeps(s: State, a: Action)
    requires StoreInv(s) && WorkEnabled(s, a)
    ensures StoreInv(ApplyWork(s, a))
  {
    match a
    case RejectBody(w) => ReadKeeps(s, w, a);
    case ReadStatus(w, ok) => ReadKeeps(s, w, a);
    case PatchProcessing(w) => PatchKeeps(s, w, a);
    case Fetch(w, height) => FetchKeeps(s, w, height);
    case RaiseInWork(w) => ReadKeeps(s, w, a);
    case PutRendition(w, raises) => PutKeeps(s, w, raises);
    case PatchProgress(w) => PatchKeeps(s, w, a);
    case PatchReady(w) => PatchKeeps(s, w, a);
    case ReadyAnswer(w, ok) => AnswerKeeps(s, w, ok);
    case CleanRaw(w, keep, removed) => CleanKeeps(s, w, keep, removed);
  }

  lemma ReadKeeps(s: State, w: WorkerId, a: Action)
    requires StoreInv(s) && WorkEnabled(s, a)
    requires a == RejectBody(w) || a == ReadStatus(w, true) || a == ReadStatus(w, false) || a == RaiseInWork(w)
    ensures StoreInv(ApplyWork(s, a))
  {
    SessionMoves(s, ApplyWork(s, a), w);
  }

  lemma AnswerKeeps(s: State, w: WorkerId, ok: bool)
    requires StoreInv(s) && WorkEnabled(s, ReadyAnswer(w, ok))
    ensures StoreInv(ApplyWork(s, ReadyAnswer(w, ok)))
  {
    assert JobOk(s.store, s.net, JobOf(s, w));
    SessionMoves(s, ApplyWork(s, ReadyAnswer(w, ok)), w);
  }

  lemma FetchKeeps(s: State, w: WorkerId, height: Option<int>)
    requires StoreInv(s) && WorkEnabled(s, Fetch(w, height))
    ensures StoreInv(ApplyWork(s, Fetch(w, height)))
  {
    var v := JobOf(s, w).body.video;
    LadderShapes(v, height);
    assert IsLadder(v, LadderFor(v, height));
    SessionMoves(s, ApplyWork(s, Fetch(w, height)), w);
  }

  lemma PatchKeeps(s: State, w: WorkerId, a: Action)
    requires StoreInv(s) && WorkEnabled(s, a)
    requires a == PatchProcessing(w) || a == PatchProgress(w) || a == PatchReady(w)
    ensures StoreInv(ApplyWork(s, a))
  {
    var t := ApplyWork(s, a);
    var j := JobOf(s, w);
    assert JobOk(s.store, s.net, j);
    var v := j.body.video;
    match a
    case PatchProcessing(_) => SessionSends(s, t, w, v, Processing, []);
    case PatchProgress(_) => SessionSends(s, t, w, v, Processing, j.pc.ladder[..j.pc.done]);
    case PatchReady(_) => SessionSends(s, t, w, v, Ready, j.pc.ladder);
  }

  lemma CleanKeeps(s: State, w: WorkerId, keep: bool, removed: bool)
    requires StoreInv(s) && WorkEnabled(s, CleanRaw(w, keep, removed))
    ensures StoreInv(ApplyWork(s, CleanRaw(w, keep, removed)))
  {
    var t := ApplyWork(s, CleanRaw(w, keep, removed));
    assert Grows(s.store, t.store);
    NetStays(s.store, t.store, s.net);
    JobsStayBut(s, t, w);
  }

  lemma PutKeeps(s: State, w: WorkerId, raises: bool)
    requires StoreInv(s) && WorkEnabled(s, PutRendition(w, raises))
    ensures StoreInv(ApplyWork(s, PutRendition(w, raises)))
  {
    var t := ApplyWork(s, PutRendition(w, raises));
    var j := JobOf(s, w);
    assert JobOk(s.store, s.net, j);
    assert Grows(s.store, t.store);
    NetStays(s.store, t.store, s.net);
    OneMoreRung(s.store, j.body.video, j.pc.ladder, j.pc.done);
    assert j.pc.ladder[..|j.pc.ladder|] == j.pc.ladder;
    JobsStayBut(s, t, w);
  }

  /** Uploading the next rung extends the entries a worker may report. */
  lemma OneMoreRung(st: Store, v: VideoId, l: seq<Rendition>, done: nat)
    requires IsLadder(v, l) && done < |l| && EntriesOk(st, v, l[..done])
    ensures EntriesOk(st.(bucket := st.bucket + {l[done].key}), v, l[..done + 1])
  {
    var height :| l == LadderFor(v, height);
    LadderShapes(v, height);
    var es := l[..done + 1];
    forall i | 0 <= i < |es|
      ensures WellMade(v, es[i]) && (es[i].key in st.bucket + {l[done].key} || v in st.deleted)
    {
      if i < done {
        assert l[..done][i] == es[i];
      }
    }
  }

  // ----- handle_message -----

  lemma SettleKeeps(s: State, a: Action)
    requires StoreInv(s) && SettleEnabled(s, a)
    ensures StoreInv(ApplySettle(s, a))
  {
    match a
    case SkipAck(w) => SettleMoves(s, w, a);
    case Ack(w, call) => SettleMoves(s, w, a);
    case Republish(w, call) => SettleMoves(s, w, a);
    case AckOriginal(w, call) => SettleMoves(s, w, a);
    case PatchFailed(w) => FailKeeps(s, w);
    case Nack(w, call) => SettleMoves(s, w, a);
  }

  function Session(a: Action): WorkerId
    requires a.SkipAck? || a.Ack? || a.Republish? || a.AckOriginal? || a.PatchFailed? || a.Nack?
  {
    a.w
  }

  /** Settling touches queues and the session's own place only. */
  lemma SettleMoves(s: State, w: WorkerId, a: Action)
    requires StoreInv(s) && SettleEnabled(s, a)
    requires !a.PatchFailed? && Session(a) == w
    ensures StoreInv(ApplySettle(s, a))
  {
    SessionMoves(s, ApplySettle(s, a), w);
  }

  lemma FailKeeps(s: State, w: WorkerId)
    requires StoreInv(s) && SettleEnabled(s, PatchFailed(w))
    ensures StoreInv(ApplySettle(s, PatchFailed(w)))
  {
    var v := Mentioned(JobOf(s, w).body);
    var t := ApplySettle(s, PatchFailed(w));
    if v.Some? {
      SessionSends(s, t, w, v.value, VideoTable.Failed, []);
    } else {
      SessionMoves(s, t, w);
    }
  }

  lemma StepKeeps(s: State, a: Action)
    requires StoreInv(s) && Enabled(s, a)
    ensures StoreInv(Apply(s, a))
  {
    if OwnerEnabled(s, a) {
      OwnerKeeps(s, a);
    } else if BrokerEnabled(s, a) {
      BrokerKeeps(s, a);
    } else if WorkEnabled(s, a) {
      WorkKeeps(s, a);
    } else {
      SettleKeeps(s, a);
    }
  }

  lemma {:induction false} RunKeeps(s: State, acts: seq<Action>, t: State)
    requires StoreInv(s) && Run(s, acts, t)
    ensures StoreInv(t)
    decreases acts
  {
    if acts != [] {
      StepKeeps(s, acts[0]);
      RunKeeps(Apply(s, acts[0]), acts[1..], t);
    }
  }

  lemma ReachableInv(s: State)
    requires Reachable(s)
    ensures StoreInv(s)
  {
    var acts :| Run(EMPTY, acts, s);
    RunKeeps(EMPTY, acts, s);
  }

  // ----- main results -----

  /**
   In every interleaving, each rendition row belongs to a live video, is the entry
   the transcoder built for that quality, and names an object present in the bucket.
   */
  lemma RenditionRowsAreBacked(s: State, v: VideoId, q: Quality)
    requires Reachable(s) && (v, q) in s.store.table.renditions
    ensures v in s.store.table.status && v !in s.store.deleted
    ensures s.store.table.renditions[(v, q)] == Entry(v, q)
    ensures RenditionObject(v, q) in s.store.bucket
  {
    ReachableInv(s);
    assert WellMade(v, s.store.table.renditions[(v, q)]);
  }

  /**
   Once a ready update has committed, and for as long as the row lives, the table
   holds every rung of that attempt's ladder, whatever statuses followed.
   */
  lemma ReadyCoversItsLadder(s: State, v: VideoId)
    requires Reachable(s) && v in s.store.table.status
    requires s.store.table.status[v] == Ready || v in s.store.everReady
    ensures v in s.store.readyLadder && IsLadder(v, s.store.readyLadder[v])
    ensures forall i :: 0 <= i < |s.store.readyLadder[v]| ==>
              && (v, s.store.readyLadder[v][i].quality) in s.store.table.renditions
              && s.store.table.renditions[(v, s.store.readyLadder[v][i].quality)] == s.store.readyLadder[v][i]
    ensures (v, P360) in s.store.table.renditions
  {
    ReachableInv(s);
    var l := s.store.readyLadder[v];
    var height :| l == LadderFor(v, height);
    LadderShapes(v, height);
    forall i | 0 <= i < |l|
      ensures (v, l[i].quality) in s.store.table.renditions && s.store.table.renditions[(v, l[i].quality)] == l[i]
    {
      assert WellMade(v, l[i]) && WellMade(v, s.store.table.renditions[(v, l[i].quality)]);
    }
    assert exists i :: 0 <= i < |l| && l[i].quality == P360 by {
      if |l| == 1 {
        assert l[0].quality == P360;
      } else {
        assert l[1].quality == P360;
      }
    }
  }

  /** v's row shows this status and holds these entries. */
  ghost predicate Shows(t: Table, v: VideoId, status: Status, es: seq<Rendition>) {
    && v in t.status && t.status[v] == status
    && forall i :: 0 <= i < |es| ==> (v, es[i].quality) in t.renditions && t.renditions[(v, es[i].quality)] == es[i]
  }

  /** A request with well-made entries that commits on a row that is not ready is all in the table. */
  lemma CommitShows(st: Store, v: VideoId, status: Status, es: seq<Rendition>)
    requires TableOk(st) && v in st.table.status && st.table.status[v] != Ready && EntriesOk(st, v, es)
    ensures Shows(CommitStore(st, Request(v, status, es, false)).table, v, status, es)
  {
    var t := CommitStore(st, Request(v, status, es, false)).table;
    UpdateTouchesOneVideo(st.table, v, status, es);
    CommitTable(st, Request(v, status, es, false));
    forall i | 0 <= i < |es| ensures (v, es[i].quality) in t.renditions && t.renditions[(v, es[i].quality)] == es[i] {
      assert WellMade(v, es[i]) && WellMade(v, t.renditions[(v, es[i].quality)]);
    }
  }

  /**
   What the transcoder reports can be served: between two rungs the update names every rung
   uploaded so far, at the end the whole ladder; once it commits the row shows them, and the
   status.
   */
  lemma ReportsTakeEffect(s: State, w: WorkerId, v: VideoId)
    requires StoreInv(s) && HasJob(s, w) && JobOf(s, w).body == Event(v)
    requires v in s.store.table.status && s.store.table.status[v] != Ready
    ensures match JobOf(s, w).pc
            case Reporting(l, done) =>
              && WorkEnabled(s, PatchProgress(w))
              && var u := ApplyWork(s, PatchProgress(w));
                 OwnerEnabled(u, Commit(s.net.next)) && Shows(ApplyOwner(u, Commit(s.net.next)).store.table, v, Processing, l[..done])
            case Announcing(l) =>
              && WorkEnabled(s, PatchReady(w))
              && var u := ApplyWork(s, PatchReady(w));
                 OwnerEnabled(u, Commit(s.net.next)) && Shows(ApplyOwner(u, Commit(s.net.next)).store.table, v, Ready, l)
            case Accepted =>
              && WorkEnabled(s, PatchProcessing(w))
              && var u := ApplyWork(s, PatchProcessing(w));
                 OwnerEnabled(u, Commit(s.net.next)) && Shows(ApplyOwner(u, Commit(s.net.next)).store.table, v, Processing, [])
            case _ => true
  {
    assert JobOk(s.store, s.net, JobOf(s, w));
    match JobOf(s, w).pc
    case Reporting(l, done) => CommitShows(s.store, v, Processing, l[..done]);
    case Announcing(l) => CommitShows(s.store, v, Ready, l);
    case Accepted => CommitShows(s.store, v, Processing, []);
    case _ =>
  }

  /** The broker's steps and the settling of a message leave tables and bucket alone. */
  lemma QueueStepsLeaveTheStore(s: State, a: Action)
    requires BrokerEnabled(s, a) || SettleEnabled(s, a)
    ensures BrokerEnabled(s, a) ==> ApplyBroker(s, a).store == s.store
    ensures SettleEnabled(s, a) ==> ApplySettle(s, a).store == s.store
  {
  }

  /** process_message reaches the tables only through requests: its own steps change the bucket at most. */
  lemma WorkLeavesTheTables(s: State, a: Action)
    requires WorkEnabled(s, a)
    ensures ApplyWork(s, a).store == s.store.(bucket := ApplyWork(s, a).store.bucket)
  {
  }

  /** One step takes a raw object away only from a video that was ready once or that its owner deleted. */
  lemma RawLeavesAfterReady(s: State, a: Action, v: VideoId)
    requires StoreInv(s) && Enabled(s, a)
    requires Raw(v) in s.store.bucket && Raw(v) !in Apply(s, a).store.bucket
    ensures v in s.store.everReady || v in s.store.deleted
  {
    if OwnerEnabled(s, a) {
      if a.DeleteObject? {
        assert DeletionOk(s.store, s.deletions[a.d]);
      }
    } else if BrokerEnabled(s, a) {
      QueueStepsLeaveTheStore(s, a);
    } else if WorkEnabled(s, a) {
      RawLeavesInCleanup(s, a, v);
    } else {
      QueueStepsLeaveTheStore(s, a);
    }
  }

  lemma RawLeavesInCleanup(s: State, a: Action, v: VideoId)
    requires StoreInv(s) && WorkEnabled(s, a)
    requires Raw(v) in s.store.bucket && Raw(v) !in ApplyWork(s, a).store.bucket
    ensures v in s.store.everReady
  {
    if a.CleanRaw? {
      assert JobOk(s.store, s.net, JobOf(s, a.w));
    }
  }

  lemma PastStays(s: State, a: Action)
    requires Enabled(s, a)
    ensures s.store.everReady <= Apply(s, a).store.everReady
    ensures s.store.everFailed <= Apply(s, a).store.everFailed
    ensures s.store.deleted <= Apply(s, a).store.deleted
  {
    if OwnerEnabled(s, a) {
    } else if WorkEnabled(s, a) && !BrokerEnabled(s, a) {
      WorkLeavesTheTables(s, a);
    } else {
      QueueStepsLeaveTheStore(s, a);
    }
  }

  /**
   Raw input is kept until ready: over any run, a stored raw object of a video
   that is neither deleted nor ready by the end is still stored, so no attempt
   removes the input of a retry.  KEEP_RAW (CleanRaw's `keep`) plays no part.
   */
  lemma RawKeptUntilReady(s: State, acts: seq<Action>, t: State, v: VideoId)
    requires Reachable(s) && Run(s, acts, t)
    requires Raw(v) in s.store.bucket
    ensures Raw(v) in t.store.bucket || v in t.store.everReady || v in t.store.deleted
  {
    ReachableInv(s);
    RawKeptFrom(s, acts, t, v);
  }

  lemma {:induction false} RawKeptFrom(s: State, acts: seq<Action>, t: State, v: VideoId)
    requires StoreInv(s) && Run(s, acts, t)
    requires Raw(v) in s.store.bucket
    ensures Raw(v) in t.store.bucket || v in t.store.everReady || v in t.store.deleted
    decreases acts
  {
    if acts != [] {
      var u := Apply(s, acts[0]);
      StepKeeps(s, acts[0]);
      PastStays(s, acts[0]);
      if Raw(v) in u.store.bucket {
        RawKeptFrom(u, acts[1..], t, v);
      } else {
        RawLeavesAfterReady(s, acts[0], v);
        PastStaysOverRun(u, acts[1..], t);
      }
    }
  }

  lemma {:induction false} PastStaysOverRun(s: State, acts: seq<Action>, t: State)
    requires StoreInv(s) && Run(s, acts, t)
    ensures s.store.everReady <= t.store.everReady && s.store.deleted <= t.store.deleted
    decreases acts
  {
    if acts != [] {
      StepKeeps(s, acts[0]);
      PastStays(s, acts[0]);
      PastStaysOverRun(Apply(s, acts[0]), acts[1..], t);
    }
  }
}
