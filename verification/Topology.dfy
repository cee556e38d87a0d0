/**
 The RabbitMQ topology both services declare: the upload service's publisher in Go and the
 transcoder in Python, each on every connect, in any order and as far as they get.
 */
module Topology {
  import opened Common

  // ----- a broker's declarations -----

  /** Queue arguments: where rejected and expired messages go, and after how many milliseconds they expire. */
  datatype Args = Args(exchange: Option<string>, routingKey: Option<string>, ttl: Option<nat>)

  datatype Declaration =
    | Exchange(name: string)
    | Queue(name: string, args: Args)
    | Bind(queue: string, exchange: string, key: string)

  datatype Broker = Broker(exchanges: set<string>, queues: map<string, Args>, bindings: map<(string, string), string>)

  /** A declaration of something that exists with other arguments is refused (406); a binding needs both its ends. */
  function Declared(b: Broker, d: Declaration): Option<Broker> {
    match d
    case Exchange(name) => Some(b.(exchanges := b.exchanges + {name}))
    case Queue(name, args) =>
      if name in b.queues && b.queues[name] != args then None else Some(b.(queues := b.queues[name := args]))
    case Bind(queue, exchange, key) =>
      if queue in b.queues && exchange in b.exchanges then Some(b.(bindings := b.bindings[(exchange, key) := queue])) else None
  }

  /** Where a message rejected from q, or expired in it, goes; nowhere means it is dropped. */
  function DeadLetterTarget(b: Broker, q: string): Option<string> {
    if q !in b.queues || b.queues[q].exchange.None? then None
    else
      var key := if b.queues[q].routingKey.Some? then b.queues[q].routingKey.value else q;
      if b.queues[q].exchange == Some("") then (if key in b.queues then Some(key) else None)
      else if (b.queues[q].exchange.value, key) in b.bindings then Some(b.bindings[(b.queues[q].exchange.value, key)])
      else None
  }

  // ----- the two declarations -----

  const MAIN := "video.uploaded"
  const DLQ := "video.uploaded.dlq"
  const RETRY := "video.uploaded.retry"
  const DLX := "dlx"
  const RETRY_TTL := 30000

  const PLAIN := Args(None, None, None)
  const TO_DLQ := Args(Some(DLX), Some(DLQ), None)
  const BACK_TO_MAIN := Args(Some(""), Some(MAIN), Some(RETRY_TTL))

  const FAN_OUT := ["video.transcode.360p", "video.transcode.720p", "video.transcode.1080p"]

  /** What the transcoder declares, in order. */
  const COMMON: seq<Declaration> :=
    [Exchange(DLX), Queue(DLQ, PLAIN), Bind(DLQ, DLX, DLQ), Queue(RETRY, BACK_TO_MAIN), Queue(MAIN, TO_DLQ)]

  /** The publisher declares the same, then its fan-out queues. */
  function PublisherList(): seq<Declaration> {
    COMMON + seq(|FAN_OUT|, i requires 0 <= i < |FAN_OUT| => Queue(FAN_OUT[i], TO_DLQ))
  }

  /** The arguments a queue of this system has. */
  function Wanted(q: string): Args {
    if q == DLQ then PLAIN else if q == RETRY then BACK_TO_MAIN else TO_DLQ
  }

  /** What exists agrees with the topology; whatever is missing may still be declared. */
  predicate Agrees(b: Broker) {
    && (forall q :: q in b.queues && (q in {MAIN, DLQ, RETRY} || q in FAN_OUT) ==> b.queues[q] == Wanted(q))
    && ((DLX, DLQ) in b.bindings ==> b.bindings[(DLX, DLQ)] == DLQ)
  }

  /** The first n declarations of a list have taken effect. */
  predicate Holds(b: Broker, ds: seq<Declaration>, n: nat)
    requires n <= |ds|
  {
    forall i :: 0 <= i < n ==> Present(b, ds[i])
  }

  predicate Present(b: Broker, d: Declaration) {
    match d
    case Exchange(name) => name in b.exchanges
    case Queue(name, args) => name in b.queues && b.queues[name] == args
    case Bind(queue, exchange, key) => (exchange, key) in b.bindings && b.bindings[(exchange, key)] == queue
  }

  /** A declaration of the topology. */
  predicate Ours(d: Declaration) {
    match d
    case Exchange(name) => name == DLX
    case Queue(name, args) => (name in {MAIN, DLQ, RETRY} || name in FAN_OUT) && args == Wanted(name)
    case Bind(queue, exchange, key) => queue == DLQ && exchange == DLX && key == DLQ
  }

  lemma AllOurs(i: nat)
    requires i < |PublisherList()|
    ensures Ours(PublisherList()[i])
    ensures i < |COMMON| ==> PublisherList()[i] == COMMON[i]
  {
  }

  /** On an agreeing broker a declaration of ours goes through, keeps what is there, and the broker still agrees. */
  lemma DeclaringOurs(b: Broker, d: Declaration)
    requires Agrees(b) && Ours(d)
    requires d.Bind? ==> DLQ in b.queues && DLX in b.exchanges
    ensures Declared(b, d).Some? && Agrees(Declared(b, d).value) && Present(Declared(b, d).value, d)
    ensures forall e :: Ours(e) && Present(b, e) ==> Present(Declared(b, d).value, e)
  {
  }

  datatype Service = Transcoder | Uploader

  function ListOf(who: Service): seq<Declaration> {
    if who == Transcoder then COMMON else PublisherList()
  }

  /** What became of one call: `taken` by the broker, `raises` in the caller. */
  datatype Call = Call(taken: bool, raises: bool)

  /** The transcoder goes on when the binding of the dead-letter queue errs. */
  predicate Swallowed(who: Service, d: Declaration) {
    who == Transcoder && d.Bind?
  }

  /**
   One service's declare_topology, stopping at the first error it does not swallow.  On an
   agreeing broker it gets through exactly when no call errs but the transcoder's binding,
   takes nothing away, and has then declared all of its list; but when that binding erred
   untaken and was not there before, rejected events go nowhere.
   */
  method DeclareAll(b: Broker, who: Service, calls: nat -> Call) returns (ok: bool, after: Broker)
    ensures Agrees(b) ==> Agrees(after) && forall e :: Ours(e) && Present(b, e) ==> Present(after, e)
    ensures Agrees(b) ==>
              (ok <==> forall i :: 0 <= i < |ListOf(who)| && calls(i).raises ==> Swallowed(who, ListOf(who)[i]))
    ensures ok && Agrees(b) ==>
              forall i :: 0 <= i < |ListOf(who)| ==>
                Present(after, ListOf(who)[i]) || (Swallowed(who, ListOf(who)[i]) && calls(i).raises)
    ensures ok && Agrees(b) ==>
              (DeadLetterTarget(after, MAIN) == Some(DLQ) <==>
                 Present(b, Bind(DLQ, DLX, DLQ)) || !calls(2).raises || calls(2).taken)
  {
    var ds := ListOf(who);
    after := b;
    var i := 0;
    while i < |ds|
      invariant 0 <= i <= |ds|
      invariant Agrees(b) ==> Progress(b, after, who, calls, i)
    {
      AllOurs(i);
      var next := Declared(after, ds[i]);
      if Agrees(b) {
        DeclaringNext(b, after, who, calls, i);
      }
      if next.Some? && (calls(i).taken || !calls(i).raises) {
        after := next.value;
      }
      if (next.None? || calls(i).raises) && !Swallowed(who, ds[i]) {
        return false, after;
      }
      i := i + 1;
    }
    if Agrees(b) {
      assert Present(after, COMMON[1]) && Present(after, COMMON[4]) by {
        AllOurs(1);
        AllOurs(4);
        assert Present(after, ds[1]) && Present(after, ds[4]);
      }
    }
    return true, after;
  }

  /** The first n calls of a declaration have been made, none of them stopping it. */
  ghost predicate Progress(b: Broker, after: Broker, who: Service, calls: nat -> Call, n: nat)
    requires n <= |ListOf(who)|
  {
    var ds := ListOf(who);
    var binding := Bind(DLQ, DLX, DLQ);
    && Agrees(after)
    && (forall e :: Ours(e) && Present(b, e) ==> Present(after, e))
    && (forall i :: 0 <= i < n ==> !calls(i).raises || Swallowed(who, ds[i]))
    && (forall i :: 0 <= i < n ==> Present(after, ds[i]) || (Swallowed(who, ds[i]) && calls(i).raises))
    && (Present(after, binding) <==> Present(b, binding) || (n > 2 && (!calls(2).raises || calls(2).taken)))
  }

  /** Only the binding sits at index 2. */
  lemma BindingAt(who: Service, i: nat)
    requires i < |ListOf(who)|
    ensures Ours(ListOf(who)[i])
    ensures ListOf(who)[i].Bind? <==> i == 2
    ensures i == 2 ==> ListOf(who)[i] == Bind(DLQ, DLX, DLQ)
    ensures i == 0 ==> ListOf(who)[i] == Exchange(DLX)
    ensures i == 1 ==> ListOf(who)[i] == Queue(DLQ, PLAIN)
  {
    AllOurs(i);
  }

  lemma DeclaringNext(b: Broker, at: Broker, who: Service, calls: nat -> Call, n: nat)
    requires n < |ListOf(who)| && Agrees(b) && Progress(b, at, who, calls, n)
    ensures Declared(at, ListOf(who)[n]).Some?
    ensures var next := if calls(n).taken || !calls(n).raises then Declared(at, ListOf(who)[n]).value else at;
            && Agrees(next)
            && (forall e :: Ours(e) && Present(b, e) ==> Present(next, e))
            && (!calls(n).raises || Swallowed(who, ListOf(who)[n]) ==> Progress(b, next, who, calls, n + 1))
  {
    var ds := ListOf(who);
    BindingAt(who, n);
    if n == 2 {
      BindingAt(who, 0);
      BindingAt(who, 1);
      assert Present(at, ds[0]) && Present(at, ds[1]);
    }
    DeclaringOurs(at, ds[n]);
    var next := if calls(n).taken || !calls(n).raises then Declared(at, ds[n]).value else at;
    assert Ours(Bind(DLQ, DLX, DLQ));
    forall i | 0 <= i < n && Present(at, ds[i]) ensures Present(next, ds[i]) {
      BindingAt(who, i);
    }
    if n != 2 {
      OtherBindingsStay(at, ds[n]);
    }
  }

  lemma OtherBindingsStay(b: Broker, d: Declaration)
    requires !d.Bind?
    ensures Declared(b, d).Some? ==> Declared(b, d).value.bindings == b.bindings
  {
  }

  // ----- main results -----

  /** Any number of declarations of the topology, in any order, as far as each is possible. */
  function DeclaredInTurn(b: Broker, ds: seq<Declaration>): Broker
    decreases |ds|
  {
    if ds == [] then b
    else DeclaredInTurn(if Declared(b, ds[0]).Some? then Declared(b, ds[0]).value else b, ds[1..])
  }

  const NEW_BROKER := Broker({}, map[], map[])

  /**
   The two services never shut each other out: whatever mixture of their declarations
   reached a fresh broker, in whatever order and however often cut off, neither of them
   is ever refused a queue afterwards.
   */
  lemma {:induction false} DeclarationsNeverClash(b: Broker, ds: seq<Declaration>, q: string)
    requires Agrees(b) && forall i :: 0 <= i < |ds| ==> Ours(ds[i])
    requires q in {MAIN, DLQ, RETRY} || q in FAN_OUT
    ensures Agrees(NEW_BROKER) && Agrees(DeclaredInTurn(b, ds))
    ensures Declared(DeclaredInTurn(b, ds), Queue(q, Wanted(q))).Some?
    decreases |ds|
  {
    if ds != [] {
      var next := if Declared(b, ds[0]).Some? then Declared(b, ds[0]).value else b;
      if Declared(b, ds[0]).Some? {
        DeclaringOurs(b, ds[0]);
      }
      DeclarationsNeverClash(next, ds[1..], q);
    }
  }

  /**
   The routing the retry protocol rests on: with the topology in place a rejected event
   goes to the dead-letter queue, an expired retry back to the main queue, both inside the
   broker, and what is dead-lettered stays.  What the fan-out queues reject goes the same way.
   */
  lemma Routing(b: Broker)
    requires Holds(b, COMMON, |COMMON|)
    ensures DeadLetterTarget(b, MAIN) == Some(DLQ)
    ensures DeadLetterTarget(b, RETRY) == Some(MAIN) && b.queues[RETRY].ttl == Some(RETRY_TTL)
    ensures DeadLetterTarget(b, DLQ) == None && DLQ in b.queues && b.queues[DLQ].ttl == None
    ensures MAIN in b.queues && b.queues[MAIN].ttl == None
    ensures MAIN == "video.uploaded" && DLQ == "video.uploaded.dlq" && RETRY == "video.uploaded.retry" && RETRY_TTL == 30000
    ensures Holds(b, PublisherList(), |PublisherList()|) ==>
              forall q :: q in {"video.transcode.360p", "video.transcode.720p", "video.transcode.1080p"} ==>
                DeadLetterTarget(b, q) == Some(DLQ) && b.queues[q].ttl == None
  {
    if Holds(b, PublisherList(), |PublisherList()|) {
      assert PublisherList()[5] == Queue(FAN_OUT[0], TO_DLQ) && PublisherList()[6] == Queue(FAN_OUT[1], TO_DLQ);
      assert PublisherList()[7] == Queue(FAN_OUT[2], TO_DLQ);
      assert Present(b, PublisherList()[5]) && Present(b, PublisherList()[6]) && Present(b, PublisherList()[7]);
    }
    assert Present(b, COMMON[1]) && Present(b, COMMON[2]) && Present(b, COMMON[3]) && Present(b, COMMON[4]);
  }

  // ----- publishing -----

  /** The publisher's connection state and the copies of an event it got into the main queue. */
  class Publisher {
    var open: bool
    var queued: nat

    constructor ()
      ensures open && queued == 0
    {
      open, queued := true, 0;
    }

    /** ensure: a closed connection is dialled again. */
    method Ensure(dialFails: bool) returns (ok: bool)
      modifies this`open
      ensures ok <==> old(open) || !dialFails
      ensures open == ok
    {
      if open {
        return true;
      }
      open := !dialFails;
      return open;
    }

    method PublishOnce(call: Call, closes: bool) returns (ok: bool)
      requires open
      modifies this
      ensures ok == !call.raises
      ensures queued == old(queued) + if call.taken then 1 else 0
      ensures open == !(call.raises && closes)
    {
      if call.taken {
        queued := queued + 1;
      }
      if call.raises && closes {
        open := false;
      }
      return !call.raises;
    }

    /**
     Publish: at most one more try, on a connection that is up again.  Two copies only when
     the first one was taken although its call raised; an error means the second try raised
     or no connection could be had.
     */
    method Publish(first: Call, closes: bool, second: Call, dialFails: bool, redialFails: bool) returns (ok: bool)
      modifies this
      ensures var tried := old(open) || !dialFails;
              var again := tried && first.raises && (!closes || !redialFails);
              queued == old(queued) + (if tried && first.taken then 1 else 0) + (if again && second.taken then 1 else 0)
      ensures queued == old(queued) + 2 ==> first.taken && first.raises && second.taken
      ensures ok ==> open
      ensures ok <==> (old(open) || !dialFails) && (!first.raises || ((!closes || !redialFails) && !second.raises))
    {
      var up := Ensure(dialFails);
      if !up {
        return false;
      }
      ok := PublishOnce(first, closes);
      if ok {
        return;
      }
      up := Ensure(redialFails);
      if !up {
        return false;
      }
      ok := PublishOnce(second, false);
    }
  }
}
