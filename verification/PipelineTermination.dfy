/**
 Retries end.  In runs without connection loss each event is delivered at most
 MAX_RETRIES + 1 times, and a weight over the queued messages bounds the number of
 queue steps by the number of events published.
 */
module PipelineTermination {
  import opened Pipeline
  import opened PipelineStore
  import opened PipelineMessages

  /** No session dies: no disconnect, no crash, no ack that the broker took while the client saw an error. */
  predicate LossFree(a: Action) {
    && !a.Disconnect?
    && !a.Crash?
    && (a.Ack? ==> !(a.call.taken && a.call.raises))
    && (a.AckOriginal? ==> !(a.call.taken && a.call.raises))
  }

  predicate AllLossFree(acts: seq<Action>) {
    forall i :: 0 <= i < |acts| ==> LossFree(acts[i])
  }

  // ----- at most MAX_RETRIES + 1 deliveries -----

  /** Still going to be delivered or decided: queued, waiting for its TTL, or being handled. */
  predicate Live(msg: Message) {
    msg.place == MainQueue || msg.place == RetryQueue || (msg.place.Unacked? && !msg.place.spent)
  }

  /** One more delivery is already spent on a message in hand. */
  function Spent(msg: Message): nat {
    if msg.place.Unacked? then msg.count + 1 else msg.count
  }

  ghost predicate OneLive(b: Broker) {
    && (forall m, n :: (m in b.msgs && n in b.msgs && m != n && Live(b.msgs[m]) && Live(b.msgs[n])) ==>
          b.msgs[m].event != b.msgs[n].event)
    && (forall e :: e in b.published ==> e in b.deliveries && b.deliveries[e] <= MAX_RETRIES + 1)
    && (forall m :: m in b.msgs && Live(b.msgs[m]) && b.msgs[m].event in b.deliveries ==>
          b.deliveries[b.msgs[m].event] <= Spent(b.msgs[m]))
  }

  lemma QueueStepKeepsOneLive(s: State, a: Action)
    requires MessageInv(s) && OneLive(s.broker) && BrokerEnabled(s, a) && LossFree(a)
    ensures OneLive(ApplyBroker(s, a).broker)
  {
    match a
    case Deliver(w, m) => assert MessageOk(s.broker, m);
    case _ =>
  }

  lemma SettleKeepsOneLive(s: State, a: Action)
    requires MessageInv(s) && OneLive(s.broker) && SettleEnabled(s, a) && LossFree(a)
    ensures OneLive(ApplySettle(s, a).broker)
  {
    if a.Republish? && a.call.taken {
      RetryKeepsOneLive(s, a.w, a.call);
    }
  }

  /** The retry copy takes over from the original, with the count that pays for its next delivery. */
  lemma RetryKeepsOneLive(s: State, w: WorkerId, call: Call)
    requires MessageInv(s) && OneLive(s.broker) && SettleEnabled(s, Republish(w, call)) && call.taken
    ensures OneLive(TakeRetry(s.broker, w, JobOf(s, w)))
  {
    var j := JobOf(s, w);
    assert HandleOk(s.broker, w, s.workers[w].connected, j);
    assert s.broker.next in s.broker.msgs ==> MessageOk(s.broker, s.broker.next);
    assert Live(s.broker.msgs[j.msg]);
  }

  lemma OwnerKeepsOneLive(s: State, a: Action)
    requires MessageInv(s) && OneLive(s.broker) && OwnerEnabled(s, a)
    ensures OneLive(ApplyOwner(s, a).broker)
  {
    if a.Publish? {
      PublishKeepsOneLive(s, a);
    } else {
      OwnersLeaveQueues(s, a);
    }
  }

  lemma PublishKeepsOneLive(s: State, a: Action)
    requires MessageInv(s) && OneLive(s.broker) && OwnerEnabled(s, a) && a.Publish?
    ensures OneLive(ApplyOwner(s, a).broker)
  {
  }

  lemma OwnersLeaveQueues(s: State, a: Action)
    requires OwnerEnabled(s, a) && !a.Publish?
    ensures ApplyOwner(s, a).broker == s.broker
  {
  }

  lemma StepKeepsOneLive(s: State, a: Action)
    requires MessageInv(s) && OneLive(s.broker) && Enabled(s, a) && LossFree(a)
    ensures OneLive(Apply(s, a).broker)
  {
    if OwnerEnabled(s, a) {
      OwnerKeepsOneLive(s, a);
    } else if BrokerEnabled(s, a) {
      QueueStepKeepsOneLive(s, a);
    } else if WorkEnabled(s, a) {
      WorkLeavesQueues(s, a);
    } else {
      SettleKeepsOneLive(s, a);
    }
  }

  /** process_message itself never touches a queue. */
  lemma WorkLeavesQueues(s: State, a: Action)
    requires WorkEnabled(s, a)
    ensures ApplyWork(s, a).broker == s.broker.(returned := ApplyWork(s, a).broker.returned)
  {
  }

  lemma {:induction false} RunKeepsOneLive(s: State, acts: seq<Action>, t: State)
    requires MessageInv(s) && StoreInv(s) && OneLive(s.broker) && Run(s, acts, t) && AllLossFree(acts)
    ensures OneLive(t.broker)
    decreases acts
  {
    if acts != [] {
      StepKeepsMessages(s, acts[0]);
      StepKeeps(s, acts[0]);
      StepKeepsOneLive(s, acts[0]);
      RunKeepsOneLive(Apply(s, acts[0]), acts[1..], t);
    }
  }

  predicate Delivers(s: State, a: Action, e: EventId) {
    a.Deliver? && a.m in s.broker.msgs && s.broker.msgs[a.m].event == e
  }

  /** How often messages of e are delivered in a run from s. */
  ghost function DeliveriesOf(s: State, acts: seq<Action>, e: EventId): nat
    decreases acts
  {
    if acts == [] || !Enabled(s, acts[0]) then 0
    else (if Delivers(s, acts[0], e) then 1 else 0) + DeliveriesOf(Apply(s, acts[0]), acts[1..], e)
  }

  ghost function Noted(b: Broker, e: EventId): nat {
    if e in b.deliveries then b.deliveries[e] else 0
  }

  /** Only deliveries count, and each of them. */
  lemma DeliveryIsNoted(s: State, a: Action, e: EventId)
    requires MessageInv(s) && Enabled(s, a) && (e !in s.broker.published ==> e !in s.broker.deliveries)
    ensures Noted(Apply(s, a).broker, e) == Noted(s.broker, e) + if Delivers(s, a, e) then 1 else 0
    ensures e !in Apply(s, a).broker.published ==> e !in Apply(s, a).broker.deliveries
  {
    hide MessageInv;
    if OwnerEnabled(s, a) {
      OwnersDeliverNothing(s, a, e);
    } else if BrokerEnabled(s, a) {
      DeliveryInBroker(s, a, e);
    } else if WorkEnabled(s, a) {
      WorkLeavesQueues(s, a);
    } else {
      SettlingDeliversNothing(s, a);
    }
  }

  lemma OwnersDeliverNothing(s: State, a: Action, e: EventId)
    requires OwnerEnabled(s, a) && (e !in s.broker.published ==> e !in s.broker.deliveries)
    ensures Noted(ApplyOwner(s, a).broker, e) == Noted(s.broker, e) && !Delivers(s, a, e)
    ensures e !in ApplyOwner(s, a).broker.published ==> e !in ApplyOwner(s, a).broker.deliveries
  {
    if !a.Publish? {
      OwnersLeaveQueues(s, a);
    }
  }

  lemma DeliveryInBroker(s: State, a: Action, e: EventId)
    requires MessageInv(s) && BrokerEnabled(s, a) && (e !in s.broker.published ==> e !in s.broker.deliveries)
    ensures Noted(ApplyBroker(s, a).broker, e) == Noted(s.broker, e) + if Delivers(s, a, e) then 1 else 0
    ensures ApplyBroker(s, a).broker.published == s.broker.published
    ensures e !in s.broker.published ==> e !in ApplyBroker(s, a).broker.deliveries
  {
    if a.Deliver? {
      assert MessageOk(s.broker, a.m);
    }
  }

  lemma SettlingDeliversNothing(s: State, a: Action)
    requires SettleEnabled(s, a)
    ensures ApplySettle(s, a).broker.deliveries == s.broker.deliveries && ApplySettle(s, a).broker.published == s.broker.published
  {
  }

  lemma {:induction false} DeliveriesAreNoted(s: State, acts: seq<Action>, t: State, e: EventId)
    requires MessageInv(s) && StoreInv(s) && Run(s, acts, t) && (e !in s.broker.published ==> e !in s.broker.deliveries)
    ensures Noted(t.broker, e) == Noted(s.broker, e) + DeliveriesOf(s, acts, e)
    decreases acts
  {
    if acts != [] {
      StepKeepsMessages(s, acts[0]);
      StepKeeps(s, acts[0]);
      DeliveryIsNoted(s, acts[0], e);
      DeliveriesAreNoted(Apply(s, acts[0]), acts[1..], t, e);
    }
  }

  /** Over any run without connection loss, every published event is delivered at most four times. */
  lemma DeliveriesAreBounded(acts: seq<Action>, t: State, e: EventId)
    requires Run(EMPTY, acts, t) && AllLossFree(acts) && e in t.broker.published
    ensures DeliveriesOf(EMPTY, acts, e) <= 4
    ensures e in t.broker.deliveries && t.broker.deliveries[e] <= MAX_RETRIES + 1
  {
    RunKeepsOneLive(EMPTY, acts, t);
    DeliveriesAreNoted(EMPTY, acts, t, e);
  }

  // ----- the measure -----

  /** What a message can still cost: four steps for each delivery left, less those already taken. */
  function Weight(msg: Message): nat
    requires msg.count <= MAX_RETRIES
  {
    var left := 4 * (MAX_RETRIES + 1 - msg.count);
    match msg.place
    case RetryQueue => left + 3
    case MainQueue => left + 2
    case Unacked(_, spent) => if spent then 1 else left + 1
    case DeadLetter(_) => 0
  }

  ghost predicate CountsOk(msgs: map<MessageId, Message>) {
    forall m :: m in msgs ==> msgs[m].count <= MAX_RETRIES
  }

  ghost function Total(msgs: map<MessageId, Message>): nat
    requires CountsOk(msgs)
  {
    if msgs == map[] then 0
    else
      var m :| m in msgs;
      Weight(msgs[m]) + Total(msgs - {m})
  }

  lemma {:induction false} TotalWithout(msgs: map<MessageId, Message>, m: MessageId)
    requires CountsOk(msgs) && m in msgs
    ensures Total(msgs) == Weight(msgs[m]) + Total(msgs - {m})
    decreases |msgs|
  {
    var k :| k in msgs && Total(msgs) == Weight(msgs[k]) + Total(msgs - {k});
    if k != m {
      TotalWithout(msgs - {k}, m);
      TotalWithout(msgs - {m}, k);
      assert msgs - {k} - {m} == msgs - {m} - {k};
    }
  }

  lemma TotalWith(msgs: map<MessageId, Message>, m: MessageId, msg: Message)
    requires CountsOk(msgs) && msg.count <= MAX_RETRIES
    ensures CountsOk(msgs[m := msg])
    ensures Total(msgs[m := msg]) == Weight(msg) + Total(msgs) - (if m in msgs then Weight(msgs[m]) else 0)
  {
    TotalWithout(msgs[m := msg], m);
    assert msgs[m := msg] - {m} == msgs - {m};
    if m in msgs {
      TotalWithout(msgs, m);
    } else {
      assert msgs - {m} == msgs;
    }
  }

  ghost function Load(s: State): nat
    requires MessageInv(s)
  {
    CountsFrom(s.broker);
    Total(s.broker.msgs)
  }

  lemma CountsFrom(b: Broker)
    requires QueuesOk(b)
    ensures CountsOk(b.msgs)
  {
  }

  /** A step in which a message moves: delivered, retried, timed out of the retry queue, settled. */
  predicate MovesMessage(a: Action) {
    || a.Deliver?
    || a.ExpireTtl?
    || ((a.Ack? || a.Republish? || a.AckOriginal? || a.Nack?) && a.call.taken)
  }

  const PUBLISH_COST: nat := 4 * (MAX_RETRIES + 1) + 2

  lemma QueueStepDecreases(s: State, a: Action)
    requires MessageInv(s) && BrokerEnabled(s, a) && LossFree(a) && MessageInv(ApplyBroker(s, a))
    ensures Load(ApplyBroker(s, a)) + MoveCost(a) <= Load(s)
  {
    CountsFrom(s.broker);
    match a
    case ExpireTtl(m) => TotalWith(s.broker.msgs, m, s.broker.msgs[m].(place := MainQueue));
    case Deliver(w, m) => TotalWith(s.broker.msgs, m, s.broker.msgs[m].(place := Unacked(w, false)));
    case Connect(w) =>
  }

  lemma SettleDecreases(s: State, a: Action)
    requires MessageInv(s) && SettleEnabled(s, a) && LossFree(a) && MessageInv(ApplySettle(s, a))
    ensures Load(ApplySettle(s, a)) + MoveCost(a) <= Load(s)
  {
    CountsFrom(s.broker);
    CountsFrom(ApplySettle(s, a).broker);
    if MovesMessage(a) {
      assert HandleOk(s.broker, Session(a), s.workers[Session(a)].connected, JobOf(s, Session(a)));
      if a.Republish? {
        RetryDecreases(s.broker, a.w, JobOf(s, a.w));
      } else if a.Nack? {
        NackDecreases(s, a);
      } else {
        AckDecreases(s, a);
      }
    }
  }

  lemma NackDecreases(s: State, a: Action)
    requires SettleEnabled(s, a) && MovesMessage(a) && a.Nack?
    requires CountsOk(s.broker.msgs) && CountsOk(ApplySettle(s, a).broker.msgs)
    ensures Total(ApplySettle(s, a).broker.msgs) < Total(s.broker.msgs)
  {
    var j := JobOf(s, a.w);
    TotalWith(s.broker.msgs, j.msg, s.broker.msgs[j.msg].(place := DeadLetter(j.pc.raised)));
  }

  lemma AckDecreases(s: State, a: Action)
    requires SettleEnabled(s, a) && LossFree(a) && MovesMessage(a) && (a.Ack? || a.AckOriginal?)
    requires CountsOk(s.broker.msgs) && CountsOk(ApplySettle(s, a).broker.msgs)
    ensures Total(ApplySettle(s, a).broker.msgs) < Total(s.broker.msgs)
  {
    TotalWithout(s.broker.msgs, JobOf(s, a.w).msg);
  }

  /** The retry copy weighs less than what the original gives up. */
  lemma RetryDecreases(b: Broker, w: WorkerId, j: Job)
    requires QueuesOk(b) && Holds(b, w, j.msg) && !b.msgs[j.msg].place.spent
    requires b.msgs[j.msg].count == j.count < MAX_RETRIES
    ensures CountsOk(b.msgs) && CountsOk(TakeRetry(b, w, j).msgs)
    ensures Total(TakeRetry(b, w, j).msgs) == Total(b.msgs) - 1
  {
    CountsFrom(b);
    assert b.next in b.msgs ==> MessageOk(b, b.next);
    var spent := b.msgs[j.msg].(place := Unacked(w, true));
    var copy := Message(j.event, j.body, j.count + 1, RetryQueue);
    TotalWith(b.msgs, j.msg, spent);
    TotalWith(b.msgs[j.msg := spent], b.next, copy);
    assert TakeRetry(b, w, j).msgs == b.msgs[j.msg := spent][b.next := copy];
  }

  lemma OwnerLoad(s: State, a: Action)
    requires MessageInv(s) && OwnerEnabled(s, a) && MessageInv(ApplyOwner(s, a))
    ensures Load(ApplyOwner(s, a)) + MoveCost(a) <= Load(s) + PublishGain(a)
  {
    CountsFrom(s.broker);
    if a.Publish? {
      assert s.broker.next in s.broker.msgs ==> MessageOk(s.broker, s.broker.next);
      TotalWith(s.broker.msgs, s.broker.next, Message(a.e, a.body, 0, MainQueue));
    }
  }

  lemma WorkLoad(s: State, a: Action)
    requires MessageInv(s) && WorkEnabled(s, a) && MessageInv(ApplyWork(s, a))
    ensures Load(ApplyWork(s, a)) + MoveCost(a) <= Load(s)
  {
  }

  /** Every step that moves a message decreases the load; only a publish adds to it. */
  lemma StepDecreases(s: State, a: Action)
    requires MessageInv(s) && StoreInv(s) && Enabled(s, a) && LossFree(a)
    ensures MessageInv(Apply(s, a))
    ensures Load(Apply(s, a)) + MoveCost(a) <= Load(s) + PublishGain(a)
  {
    StepKeepsMessages(s, a);
    if OwnerEnabled(s, a) {
      OwnerLoad(s, a);
    } else if BrokerEnabled(s, a) {
      QueueStepDecreases(s, a);
    } else if WorkEnabled(s, a) {
      WorkLoad(s, a);
    } else {
      SettleDecreases(s, a);
    }
  }

  function MoveCost(a: Action): nat {
    if MovesMessage(a) then 1 else 0
  }

  function PublishGain(a: Action): nat {
    if a.Publish? then PUBLISH_COST else 0
  }

  function Moves(acts: seq<Action>): nat {
    if acts == [] then 0 else MoveCost(acts[0]) + Moves(acts[1..])
  }

  function Publishes(acts: seq<Action>): nat {
    if acts == [] then 0 else (if acts[0].Publish? then 1 else 0) + Publishes(acts[1..])
  }

  function Gains(acts: seq<Action>): nat {
    if acts == [] then 0 else PublishGain(acts[0]) + Gains(acts[1..])
  }

  lemma {:induction false} GainsOfPublishes(acts: seq<Action>)
    ensures Gains(acts) == PUBLISH_COST * Publishes(acts)
  {
    if acts != [] {
      GainsOfPublishes(acts[1..]);
    }
  }

  lemma {:induction false} RunLoad(s: State, acts: seq<Action>, t: State)
    requires MessageInv(s) && StoreInv(s) && Run(s, acts, t) && AllLossFree(acts)
    ensures MessageInv(t)
    ensures Moves(acts) + Load(t) <= Load(s) + Gains(acts)
    decreases acts
  {
    if acts != [] {
      StepDecreases(s, acts[0]);
      StepKeeps(s, acts[0]);
      RunLoad(Apply(s, acts[0]), acts[1..], t);
    }
  }

  /** Without connection loss, n published events cause at most 18 n message steps in all, however long the run. */
  lemma RetriesTerminate(acts: seq<Action>, t: State)
    requires Run(EMPTY, acts, t) && AllLossFree(acts)
    ensures Moves(acts) <= PUBLISH_COST * Publishes(acts)
  {
    RunLoad(EMPTY, acts, t);
    GainsOfPublishes(acts);
  }
}
