/**
 process_message and handle_message as the source writes them, one statement after
 another over the shared world, with every other actor free to act in between.  Each
 statement takes one step of the pipeline's transition system, so a whole handling is
 a run, and everything proved of runs holds of it.  What the handler itself does, and how
 it ends, is given exactly by what its calls met and by what the world showed at its three
 looks: the status read, the fetch and the reply to the ready update.
 */
module Consumer {
  import opened Common
  import opened VideoTable
  import opened Ladder
  import opened Pipeline

  /** The world the consumers share.  `trace` is every step taken since `start`, `states` what it was before each, and now. */
  class World {
    var now: State
    ghost var start: State
    ghost var trace: seq<Action>
    ghost var states: seq<State>

    ghost predicate Valid()
      reads this
    {
      && Run(start, trace, now)
      && |states| == |trace| + 1 && states[0] == start && states[|trace|] == now && Trace(states, trace)
    }

    constructor ()
      ensures Valid() && now == EMPTY && start == EMPTY && trace == []
    {
      now := EMPTY;
      start := EMPTY;
      trace := [];
      states := [EMPTY];
    }

    method Do(a: Action)
      requires Valid() && Enabled(now, a)
      modifies this
      ensures Valid() && start == old(start)
      ensures now == Apply(old(now), a) && trace == old(trace) + [a] && states == old(states) + [now]
    {
      hide Enabled, Apply;
      ghost var before := now;
      now := Apply(now, a);
      assert Run(before, [a], now) by {
        assert [a][1..] == [];
        assert Run(now, [], now);
      }
      RunConcat(start, trace, before, [a], now);
      trace := trace + [a];
      states := states + [now];
    }
  }

  /** Steps only session w's own handler, or the broker delivering to it, takes. */
  predicate OwnStep(a: Action, w: WorkerId) {
    match a
    case Connect(u) => u == w
    case Deliver(u, _) => u == w
    case Crash(u) => u == w
    case RejectBody(u) => u == w
    case ReadStatus(u, _) => u == w
    case PatchProcessing(u) => u == w
    case Fetch(u, _) => u == w
    case RaiseInWork(u) => u == w
    case PutRendition(u, _) => u == w
    case PatchProgress(u) => u == w
    case PatchReady(u) => u == w
    case ReadyAnswer(u, _) => u == w
    case CleanRaw(u, _, _) => u == w
    case SkipAck(u) => u == w
    case Ack(u, _) => u == w
    case Republish(u, _) => u == w
    case AckOriginal(u, _) => u == w
    case PatchFailed(u) => u == w
    case Nack(u, _) => u == w
    case _ => false
  }

  /** Nobody else moves w's handler; they may cut its connection. */
  lemma OthersKeepTheJob(s: State, a: Action, w: WorkerId)
    requires HasJob(s, w) && Enabled(s, a) && !OwnStep(a, w)
    ensures HasJob(Apply(s, a), w) && JobOf(Apply(s, a), w) == JobOf(s, w)
  {
    if !OwnerEnabled(s, a) && !BrokerEnabled(s, a) {
      if WorkEnabled(s, a) {
        OtherWorkersKeepTheJob(s, a, w);
      } else {
        OtherHandlersKeepTheJob(s, a, w);
      }
    }
  }

  lemma OtherWorkersKeepTheJob(s: State, a: Action, w: WorkerId)
    requires HasJob(s, w) && WorkEnabled(s, a) && !OwnStep(a, w)
    ensures ApplyWork(s, a).workers[w] == s.workers[w]
  {
  }

  lemma OtherHandlersKeepTheJob(s: State, a: Action, w: WorkerId)
    requires HasJob(s, w) && SettleEnabled(s, a) && !OwnStep(a, w)
    ensures ApplySettle(s, a).workers[w] == s.workers[w]
  {
  }

  /** What process_message has returned for stays returned. */
  lemma ReturnedStays(s: State, a: Action)
    requires Enabled(s, a)
    ensures s.broker.returned <= Apply(s, a).broker.returned
  {
    if !OwnerEnabled(s, a) && !BrokerEnabled(s, a) {
      if WorkEnabled(s, a) {
        WorkKeepsReturned(s, a);
      } else {
        SettleKeepsReturned(s, a);
      }
    }
  }

  lemma WorkKeepsReturned(s: State, a: Action)
    requires WorkEnabled(s, a)
    ensures s.broker.returned <= ApplyWork(s, a).broker.returned
  {
  }

  lemma SettleKeepsReturned(s: State, a: Action)
    requires SettleEnabled(s, a)
    ensures s.broker.returned == ApplySettle(s, a).broker.returned
  {
  }

  // ----- what a handler did -----

  /** A call as its caller sees it. */
  function Told(c: Call): Call {
    Call(false, c.raises)
  }

  /** A step as its session sees it: whether the broker took a call is not for it to know. */
  function Seen(a: Action): Action {
    match a
    case Ack(w, c) => Ack(w, Told(c))
    case Republish(w, c) => Republish(w, Told(c))
    case AckOriginal(w, c) => AckOriginal(w, Told(c))
    case Nack(w, c) => Nack(w, Told(c))
    case _ => a
  }

  /** w's own steps, in order. */
  ghost function OwnSteps(trace: seq<Action>, w: WorkerId): seq<Action> {
    if trace == [] then []
    else
      var last := trace[|trace| - 1];
      OwnSteps(trace[..|trace| - 1], w) + if OwnStep(last, w) then [Seen(last)] else []
  }

  lemma OwnStepsOn(trace: seq<Action>, a: Action, w: WorkerId)
    ensures OwnSteps(trace + [a], w) == OwnSteps(trace, w) + if OwnStep(a, w) then [Seen(a)] else []
  {
    assert (trace + [a])[..|trace|] == trace;
  }

  /** What one handling meets: answers, failures, and what the others do at each of its pauses. */
  datatype Weather = Weather(
    readable: bool,                 // GET status answers
    fetchFails: bool,               // stat, disk check or download raises
    height: Option<int>,            // what the probe says
    encodeFails: nat -> bool,       // ffmpeg or the upload raises on rung i
    putLost: nat -> bool,           // the upload of rung i lands, then raises
    wrapUpFails: bool,              // leaving the temporary directory raises
    readyAnswered: bool,            // the ready PATCH is answered in time
    keepRaw: bool,                  // KEEP_RAW
    rawRemoved: bool,               // remove_object takes effect
    quiesced: bool,                 // the heartbeat thread stopped in time
    ack: Call,
    republish: Call,
    ackOriginal: Call,
    nack: Call,
    others: nat -> seq<Action>)

  /** The broker takes a call when it was sent on a live session that still has the message. */
  ghost predicate Live(s: State, w: WorkerId) {
    HasJob(s, w) && s.workers[w].connected && Holds(s.broker, w, JobOf(s, w).msg)
  }

  /** The calls of w in a step from s are answered as the weather has it. */
  ghost predicate Answered(weather: Weather, s: State, a: Action, w: WorkerId) {
    match a
    case Ack(u, c) => u == w ==> c == Call(weather.ack.taken && Live(s, w), weather.ack.raises)
    case Republish(u, c) => u == w ==> c == Call(weather.republish.taken && Live(s, w), weather.republish.raises)
    case AckOriginal(u, c) =>
      u == w ==> c == Call(weather.ackOriginal.taken && Live(s, w) && s.broker.msgs[JobOf(s, w).msg].place.spent, weather.ackOriginal.raises)
    case Nack(u, c) => u == w ==> c == Call(weather.nack.taken && Live(s, w), weather.nack.raises)
    case _ => true
  }

  /** From trace `was` to `trace`, w took these steps of its own, its calls answered as the weather has it. */
  ghost predicate Did(weather: Weather, w: WorkerId, was: seq<Action>, states: seq<State>, trace: seq<Action>, steps: seq<Action>) {
    && was <= trace && |states| == |trace| + 1
    && OwnSteps(trace, w) == OwnSteps(was, w) + steps
    && forall i :: |was| <= i < |trace| ==> Answered(weather, states[i], trace[i], w)
  }

  lemma DidBoth(weather: Weather, w: WorkerId, was: seq<Action>, before: seq<State>, between: seq<Action>, a: seq<Action>,
                states: seq<State>, trace: seq<Action>, b: seq<Action>)
    requires Did(weather, w, was, before, between, a) && Did(weather, w, between, states, trace, b) && before <= states
    ensures Did(weather, w, was, states, trace, a + b)
  {
    hide OwnSteps, Answered;
    assert OwnSteps(was, w) + a + b == OwnSteps(was, w) + (a + b);
  }

  /** The world went on: the trace grew into a longer run, and processed events stay processed. */
  twostate predicate Later(world: World)
    reads world
  {
    && world.Valid()
    && world.start == old(world.start)
    && old(world.trace) <= world.trace && old(world.states) <= world.states
    && old(world.now).broker.returned <= world.now.broker.returned
  }

  /** And w took these steps of its own. */
  twostate predicate Took(world: World, w: WorkerId, weather: Weather, steps: seq<Action>)
    reads world
  {
    Later(world) && Did(weather, w, old(world.trace), world.states, world.trace, steps)
  }

  /** One step of w's own. */
  method Take(world: World, w: WorkerId, weather: Weather, a: Action)
    requires world.Valid() && Enabled(world.now, a) && OwnStep(a, w) && Answered(weather, world.now, a, w)
    modifies world
    ensures Took(world, w, weather, [Seen(a)])
    ensures world.now == Apply(old(world.now), a)
    ensures world.trace == old(world.trace) + [a] && world.states == old(world.states) + [world.now]
  {
    ReturnedStays(world.now, a);
    OwnStepsOn(world.trace, a, w);
    world.Do(a);
  }

  /** One that ends at the given pc. */
  method Step(world: World, w: WorkerId, weather: Weather, a: Action, pc: Pc)
    requires world.Valid() && HasJob(world.now, w) && Enabled(world.now, a) && OwnStep(a, w) && Answered(weather, world.now, a, w)
    requires HasJob(Apply(world.now, a), w) && JobOf(Apply(world.now, a), w) == JobOf(world.now, w).(pc := pc)
    requires pc == Returned ==> JobOf(world.now, w).event in Apply(world.now, a).broker.returned
    modifies world
    ensures Took(world, w, weather, [Seen(a)])
    ensures HasJob(world.now, w) && JobOf(world.now, w) == JobOf(old(world.now), w).(pc := pc)
    ensures pc == Returned ==> JobOf(old(world.now), w).event in world.now.broker.returned
    ensures world.trace == old(world.trace) + [a]
  {
    hide Enabled, Apply;
    Take(world, w, weather, a);
  }

  /** Everybody else's turn: any steps at all that are not w's own. */
  method Others(world: World, w: WorkerId, weather: Weather, turn: nat)
    requires world.Valid() && HasJob(world.now, w)
    modifies world
    ensures Took(world, w, weather, [])
    ensures HasJob(world.now, w) && JobOf(world.now, w) == JobOf(old(world.now), w)
  {
    hide Enabled, Apply, Run, Trace;
    var steps := weather.others(turn);
    var i := 0;
    while i < |steps|
      invariant 0 <= i <= |steps|
      invariant Took(world, w, weather, [])
      invariant HasJob(world.now, w) && JobOf(world.now, w) == JobOf(old(world.now), w)
    {
      if Enabled(world.now, steps[i]) && !OwnStep(steps[i], w) {
        OthersKeepTheJob(world.now, steps[i], w);
        ReturnedStays(world.now, steps[i]);
        OwnStepsOn(world.trace, steps[i], w);
        world.Do(steps[i]);
      }
      i := i + 1;
    }
  }

  // ----- what a handling should do -----

  /** A ready or failed video, as a status read sees it. */
  ghost predicate Finished(s: State, v: VideoId) {
    v in s.store.table.status && (s.store.table.status[v] == Ready || s.store.table.status[v] == VideoTable.Failed)
  }

  /** The ready update w waits for has committed. */
  ghost predicate ReadyCommitted(s: State, w: WorkerId) {
    && HasJob(s, w) && JobOf(s, w).pc.AwaitingReady?
    && JobOf(s, w).pc.request in s.net.requests && s.net.requests[JobOf(s, w).pc.request].committed
  }

  /** Encoding or uploading one of n rungs raises. */
  ghost predicate RungFails(weather: Weather, n: nat) {
    exists k: nat :: k < n && (weather.encodeFails(k) || weather.putLost(k))
  }

  /** The steps from rung k on: each is put and, but for the last, reported; the first that fails ends them. */
  ghost function RungSteps(weather: Weather, w: WorkerId, k: nat, n: nat): seq<Action>
    requires k <= n
    decreases n - k
  {
    if k == n then []
    else if weather.encodeFails(k) then [RaiseInWork(w)]
    else if weather.putLost(k) then [PutRendition(w, true)]
    else if k + 1 < n then [PutRendition(w, false), PatchProgress(w)] + RungSteps(weather, w, k + 1, n)
    else [PutRendition(w, false)]
  }

  /** Why the work on a video raises; `raw` and `committed` are what the fetch and the ready reply found. */
  ghost predicate WorkRaises(weather: Weather, n: nat, raw: bool, committed: bool) {
    || weather.fetchFails || !raw
    || RungFails(weather, n)
    || weather.wrapUpFails
    || !weather.readyAnswered || !committed
  }

  /** The steps of the work on a video, whose ladder has n rungs. */
  ghost function WorkSteps(weather: Weather, w: WorkerId, n: nat, raw: bool, committed: bool): seq<Action> {
    [PatchProcessing(w)] +
    if weather.fetchFails || !raw then [RaiseInWork(w)]
    else [Fetch(w, weather.height)] + (RungSteps(weather, w, 0, n) + if RungFails(weather, n) then [] else AfterRungs(weather, w, committed))
  }

  ghost function AfterRungs(weather: Weather, w: WorkerId, committed: bool): seq<Action> {
    if weather.wrapUpFails then [RaiseInWork(w)]
    else if !weather.readyAnswered || !committed then [PatchReady(w), ReadyAnswer(w, false)]
    else [PatchReady(w), ReadyAnswer(w, true), CleanRaw(w, weather.keepRaw, !weather.keepRaw && weather.rawRemoved)]
  }

  /** The three looks a handling takes at the world, as positions in its trace. */
  datatype Looks = Looks(read: nat, fetch: nat, reply: nat)

  /** The looks were taken in the handling that began at `from`, as far as it came to them. */
  ghost predicate LooksAre(states: seq<State>, trace: seq<Action>, from: nat, w: WorkerId, v: VideoId, weather: Weather, at: Looks)
    requires |states| == |trace| + 1
  {
    && from <= at.read < |trace| && from <= at.fetch < |trace| && from <= at.reply < |trace|
    && trace[at.read] == ReadStatus(w, weather.readable && v in states[at.read].store.table.status)
    && (Skipped(states, v, weather, at) || WorkLooksAre(states, trace, w, v, weather, at.fetch, at.reply))
  }

  ghost predicate WorkLooksAre(states: seq<State>, trace: seq<Action>, w: WorkerId, v: VideoId, weather: Weather, fetch: nat, reply: nat)
    requires |states| == |trace| + 1 && fetch < |trace| && reply < |trace|
  {
    var n := |LadderFor(v, weather.height)|;
    && At(states[fetch], w, Fetching) && trace[fetch] in {Fetch(w, weather.height), RaiseInWork(w)}
    && (!weather.fetchFails && Raw(v) in states[fetch].store.bucket && !RungFails(weather, n) && !weather.wrapUpFails ==>
          trace[reply] == ReadyAnswer(w, weather.readyAnswered && ReadyCommitted(states[reply], w)))
  }

  /** The status read answered, and showed a finished video. */
  ghost predicate Skipped(states: seq<State>, v: VideoId, weather: Weather, at: Looks)
    requires at.read < |states|
  {
    weather.readable && Finished(states[at.read], v)
  }

  // ----- process_message -----

  /**
   process_message: returns normally, or raises.  A ready or failed video that the status read
   shows is skipped: one step, nothing sent, nothing moved.  Any other answer starts the work,
   which raises exactly for one of the reasons of WorkRaises.
   */
  method ProcessMessage(world: World, w: WorkerId, weather: Weather) returns (raised: bool, ghost at: Looks)
    requires world.Valid() && At(world.now, w, Start)
    modifies world
    ensures Later(world)
    ensures HasJob(world.now, w)
    ensures JobOf(world.now, w) == JobOf(old(world.now), w).(pc := if raised then Raised else Returned)
    ensures !raised ==> JobOf(old(world.now), w).event in world.now.broker.returned
    ensures Processed(weather, w, JobOf(old(world.now), w).body, old(world.trace), world.states, world.trace, raised, at)
  {
    hide Run, Trace, Enabled, Apply, Did, OwnSteps, WorkRaises, WorkSteps, WorkLooksAre, LadderFor, ReadyCommitted;
    ghost var was := world.trace;
    at := Looks(0, 0, 0);
    if JobOf(world.now, w).body.Malformed? {
      Reject(world, w, weather);
      return false, at;
    }
    ghost var v := JobOf(world.now, w).body.video;
    Others(world, w, weather, 0);
    ghost var states, trace := world.states, world.trace;
    ghost var read;
    var skip;
    skip, read := ReadFirst(world, w, weather);
    ghost var step := ReadStatus(w, world.trace[read].ok);
    DidBoth(weather, w, was, states, trace, [], world.states, world.trace, [step]);
    assert [] + [step] == [step];
    if skip {
      at := Looks(read, read, read);
      return false, at;
    }
    states, trace := world.states, world.trace;
    ghost var fetch, reply;
    raised, fetch, reply := Transcode(world, w, weather);
    at := Looks(read, fetch, reply);
    DidBoth(weather, w, was, states, trace, [step], world.states, world.trace,
            WorkSteps(weather, w, |LadderFor(v, weather.height)|, Raw(v) in world.states[fetch].store.bucket, ReadyCommitted(world.states[reply], w)));
  }

  method Reject(world: World, w: WorkerId, weather: Weather)
    requires world.Valid() && At(world.now, w, Start) && JobOf(world.now, w).body.Malformed?
    modifies world
    ensures Took(world, w, weather, [RejectBody(w)])
    ensures HasJob(world.now, w) && JobOf(world.now, w) == JobOf(old(world.now), w).(pc := Returned)
    ensures JobOf(old(world.now), w).event in world.now.broker.returned
  {
    Step(world, w, weather, RejectBody(w), Returned);
  }

  /** How process_message came out, and by which steps. */
  ghost predicate Processed(weather: Weather, w: WorkerId, body: Body, was: seq<Action>, states: seq<State>, trace: seq<Action>, raised: bool, at: Looks)
  {
    && was <= trace && |states| == |trace| + 1
    && match body
       case Malformed(_) => !raised && Did(weather, w, was, states, trace, [RejectBody(w)])
       case Event(v) =>
         var n := |LadderFor(v, weather.height)|;
         && LooksAre(states, trace, |was|, w, v, weather, at)
         && if Skipped(states, v, weather, at) then !raised && Did(weather, w, was, states, trace, [ReadStatus(w, true)])
            else
              var raw, committed := Raw(v) in states[at.fetch].store.bucket, ReadyCommitted(states[at.reply], w);
              && (raised <==> WorkRaises(weather, n, raw, committed))
              && Did(weather, w, was, states, trace, [ReadStatus(w, trace[at.read].ok)] + WorkSteps(weather, w, n, raw, committed))
  }

  /** The status read: a ready or failed video is skipped, and no other. */
  method ReadFirst(world: World, w: WorkerId, weather: Weather) returns (skip: bool, ghost read: nat)
    requires world.Valid() && At(world.now, w, Start) && JobOf(world.now, w).body.Event?
    modifies world
    ensures Later(world)
    ensures read == |old(world.trace)| < |world.trace| && world.trace == old(world.trace) + [world.trace[read]] && world.states[read] == old(world.now)
    ensures var v := JobOf(old(world.now), w).body.video;
            && world.trace[read] == ReadStatus(w, weather.readable && v in old(world.now).store.table.status)
            && (skip <==> weather.readable && Finished(old(world.now), v))
    ensures Took(world, w, weather, [world.trace[read]])
    ensures HasJob(world.now, w)
    ensures JobOf(world.now, w) == JobOf(old(world.now), w).(pc := if skip then Returned else Accepted)
    ensures skip ==> JobOf(old(world.now), w).event in world.now.broker.returned
  {
    hide Run, Trace, Did;
    var v := JobOf(world.now, w).body.video;
    var ok := weather.readable && v in world.now.store.table.status;
    skip := ok && (world.now.store.table.status[v] == Ready || world.now.store.table.status[v] == VideoTable.Failed);
    read := |world.trace|;
    Step(world, w, weather, ReadStatus(w, ok), if skip then Returned else Accepted);
  }

  /** The work itself, from PATCH processing to the raw cleanup. */
  method Transcode(world: World, w: WorkerId, weather: Weather) returns (raised: bool, ghost fetch: nat, ghost reply: nat)
    requires world.Valid() && At(world.now, w, Accepted) && JobOf(world.now, w).body.Event?
    modifies world
    ensures Later(world)
    ensures HasJob(world.now, w)
    ensures JobOf(world.now, w) == JobOf(old(world.now), w).(pc := if raised then Raised else Returned)
    ensures !raised ==> JobOf(old(world.now), w).event in world.now.broker.returned
    ensures |old(world.trace)| <= fetch < |world.trace| && |old(world.trace)| <= reply < |world.trace|
    ensures WorkDone(weather, w, JobOf(old(world.now), w).body.video, old(world.trace), world.states, world.trace, raised, fetch, reply)
  {
    hide Run, Trace, Enabled, Apply, Did, OwnSteps, RungSteps, RungFails, AfterRungs, LadderFor, ReadyCommitted;
    ghost var was, v := world.trace, JobOf(world.now, w).body.video;
    var fetched;
    fetched, fetch := Prepare(world, w, weather);
    reply := fetch;
    if !fetched {
      assert [PatchProcessing(w)] + [RaiseInWork(w)] == [PatchProcessing(w), RaiseInWork(w)];
      return true, fetch, reply;
    }
    ghost var states, trace := world.states, world.trace;
    raised, reply := EncodeAndFinish(world, w, weather);
    ghost var rest := RungSteps(weather, w, 0, |LadderFor(v, weather.height)|)
                      + if RungFails(weather, |LadderFor(v, weather.height)|) then [] else AfterRungs(weather, w, ReadyCommitted(world.states[reply], w));
    DidBoth(weather, w, was, states, trace, [PatchProcessing(w), Fetch(w, weather.height)], world.states, world.trace, rest);
    TwoAndRest(PatchProcessing(w), Fetch(w, weather.height), rest);
  }

  lemma TwoAndRest(a: Action, b: Action, rest: seq<Action>)
    ensures [a, b] + rest == [a] + ([b] + rest)
  {
  }

  /** PATCH processing, and the fetch. */
  method Prepare(world: World, w: WorkerId, weather: Weather) returns (fetched: bool, ghost fetch: nat)
    requires world.Valid() && At(world.now, w, Accepted) && JobOf(world.now, w).body.Event?
    modifies world
    ensures Took(world, w, weather, [PatchProcessing(w), if fetched then Fetch(w, weather.height) else RaiseInWork(w)])
    ensures |old(world.trace)| <= fetch < |world.trace| && At(world.states[fetch], w, Fetching)
    ensures world.trace[fetch] == if fetched then Fetch(w, weather.height) else RaiseInWork(w)
    ensures fetched <==> !weather.fetchFails && Raw(JobOf(old(world.now), w).body.video) in world.states[fetch].store.bucket
    ensures HasJob(world.now, w)
    ensures JobOf(world.now, w) == JobOf(old(world.now), w).(
              pc := if fetched then Encoding(LadderFor(JobOf(old(world.now), w).body.video, weather.height), 0) else Raised)
  {
    hide Run, Trace, Enabled, Apply, Did, OwnSteps;
    ghost var was := world.trace;
    SendProcessing(world, w, weather);
    ghost var states, trace := world.states, world.trace;
    Others(world, w, weather, 1);
    DidBoth(weather, w, was, states, trace, [PatchProcessing(w)], world.states, world.trace, []);
    states, trace := world.states, world.trace;
    fetched, fetch := FetchAndProbe(world, w, weather);
    ghost var step := if fetched then Fetch(w, weather.height) else RaiseInWork(w);
    DidBoth(weather, w, was, states, trace, [PatchProcessing(w)] + [], world.states, world.trace, [step]);
    assert [PatchProcessing(w)] + [] + [step] == [PatchProcessing(w), step];
  }

  /** How the work came out, and by which steps. */
  ghost predicate WorkDone(weather: Weather, w: WorkerId, v: VideoId, was: seq<Action>, states: seq<State>, trace: seq<Action>,
                           raised: bool, fetch: nat, reply: nat)
  {
    && |states| == |trace| + 1 && fetch < |trace| && reply < |trace|
    && WorkLooksAre(states, trace, w, v, weather, fetch, reply)
    && var n := |LadderFor(v, weather.height)|;
       var raw, committed := Raw(v) in states[fetch].store.bucket, ReadyCommitted(states[reply], w);
       && (raised <==> WorkRaises(weather, n, raw, committed))
       && Did(weather, w, was, states, trace, WorkSteps(weather, w, n, raw, committed))
  }

  method SendProcessing(world: World, w: WorkerId, weather: Weather)
    requires world.Valid() && At(world.now, w, Accepted) && JobOf(world.now, w).body.Event?
    modifies world
    ensures Took(world, w, weather, [PatchProcessing(w)])
    ensures HasJob(world.now, w) && JobOf(world.now, w) == JobOf(old(world.now), w).(pc := Fetching)
  {
    hide Run, Trace, Did;
    Step(world, w, weather, PatchProcessing(w), Fetching);
  }

  /** stat, disk check, download and probe: it takes the raw object, and nothing failing. */
  method FetchAndProbe(world: World, w: WorkerId, weather: Weather) returns (fetched: bool, ghost fetch: nat)
    requires world.Valid() && At(world.now, w, Fetching) && JobOf(world.now, w).body.Event?
    modifies world
    ensures Took(world, w, weather, [if fetched then Fetch(w, weather.height) else RaiseInWork(w)])
    ensures fetch == |old(world.trace)| && world.states[fetch] == old(world.now)
    ensures fetched <==> !weather.fetchFails && Raw(JobOf(old(world.now), w).body.video) in old(world.now).store.bucket
    ensures world.trace == old(world.trace) + [if fetched then Fetch(w, weather.height) else RaiseInWork(w)]
    ensures HasJob(world.now, w)
    ensures JobOf(world.now, w) == JobOf(old(world.now), w).(
              pc := if fetched then Encoding(LadderFor(JobOf(old(world.now), w).body.video, weather.height), 0) else Raised)
  {
    hide Run, Trace, Did;
    var v := JobOf(world.now, w).body.video;
    fetch := |world.trace|;
    fetched := !weather.fetchFails && Raw(v) in world.now.store.bucket;
    if fetched {
      Step(world, w, weather, Fetch(w, weather.height), Encoding(LadderFor(v, weather.height), 0));
    } else {
      Step(world, w, weather, RaiseInWork(w), Raised);
    }
  }

  /** The rungs, and what comes after them if none fails. */
  method EncodeAndFinish(world: World, w: WorkerId, weather: Weather) returns (raised: bool, ghost reply: nat)
    requires world.Valid() && HasJob(world.now, w) && JobOf(world.now, w).body.Event?
    requires JobOf(world.now, w).pc == Encoding(LadderFor(JobOf(world.now, w).body.video, weather.height), 0)
    modifies world
    ensures Later(world) && |old(world.trace)| <= reply < |world.trace|
    ensures HasJob(world.now, w)
    ensures JobOf(world.now, w) == JobOf(old(world.now), w).(pc := if raised then Raised else Returned)
    ensures !raised ==> JobOf(old(world.now), w).event in world.now.broker.returned
    ensures var n := |LadderFor(JobOf(old(world.now), w).body.video, weather.height)|;
            var committed := ReadyCommitted(world.states[reply], w);
            && (raised <==> RungFails(weather, n) || weather.wrapUpFails || !weather.readyAnswered || !committed)
            && (!RungFails(weather, n) && !weather.wrapUpFails ==> world.trace[reply] == ReadyAnswer(w, weather.readyAnswered && committed))
            && Took(world, w, weather, RungSteps(weather, w, 0, n) + if RungFails(weather, n) then [] else AfterRungs(weather, w, committed))
  {
    hide Run, Trace, Enabled, Apply, Did, OwnSteps, RungSteps, AfterRungs;
    ghost var was, v := world.trace, JobOf(world.now, w).body.video;
    raised := EncodeAll(world, w, weather);
    reply := |world.trace| - 1;
    if !raised {
      ghost var states, trace := world.states, world.trace;
      raised, reply := Finish(world, w, weather);
      DidBoth(weather, w, was, states, trace, RungSteps(weather, w, 0, |LadderFor(v, weather.height)|),
              world.states, world.trace, AfterRungs(weather, w, ReadyCommitted(world.states[reply], w)));
    } else {
      assert RungSteps(weather, w, 0, |LadderFor(v, weather.height)|) + [] == RungSteps(weather, w, 0, |LadderFor(v, weather.height)|);
    }
  }

  /** The ladder loop: encode, upload, report, rung after rung. */
  method EncodeAll(world: World, w: WorkerId, weather: Weather) returns (raised: bool)
    requires world.Valid() && HasJob(world.now, w) && JobOf(world.now, w).body.Event?
    requires JobOf(world.now, w).pc == Encoding(LadderFor(JobOf(world.now, w).body.video, weather.height), 0)
    modifies world
    ensures raised <==> RungFails(weather, |JobOf(old(world.now), w).pc.ladder|)
    ensures Took(world, w, weather, RungSteps(weather, w, 0, |JobOf(old(world.now), w).pc.ladder|)) && |old(world.trace)| < |world.trace|
    ensures HasJob(world.now, w)
    ensures JobOf(world.now, w) ==
            JobOf(old(world.now), w).(pc := if raised then Raised else Announcing(JobOf(old(world.now), w).pc.ladder))
  {
    hide Run, Trace, Enabled, Apply, Did, RungStep, RungSteps, LadderFor;
    var ladder := JobOf(world.now, w).pc.ladder;
    SomeRung(JobOf(world.now, w).body.video, weather.height);
    ghost var was := world.trace;
    ghost var taken: seq<Action> := [];
    NothingDid(weather, w, world.states, world.trace);
    var done := 0;
    while done < |ladder|
      invariant 0 <= done <= |ladder|
      invariant Later(world) && Did(weather, w, was, world.states, world.trace, taken) && (done > 0 ==> |was| < |world.trace|)
      invariant taken + RungSteps(weather, w, done, |ladder|) == RungSteps(weather, w, 0, |ladder|)
      invariant forall k: nat :: k < done ==> !weather.encodeFails(k) && !weather.putLost(k)
      invariant HasJob(world.now, w)
      invariant JobOf(world.now, w) ==
                JobOf(old(world.now), w).(pc := if done < |ladder| then Encoding(ladder, done) else Announcing(ladder))
    {
      raised := EncodeNext(world, w, weather, ladder, done, was, taken);
      OneRungOn(weather, w, taken, done, |ladder|);
      taken := taken + RungStep(weather, w, done, |ladder|);
      if raised {
        assert taken + [] == taken;
        return;
      }
      done := done + 1;
    }
    NoRungLeft(weather, w, |ladder|);
    assert taken + [] == taken;
    return false;
  }

  lemma NoRungLeft(weather: Weather, w: WorkerId, n: nat)
    ensures RungSteps(weather, w, n, n) == []
  {
  }

  lemma SomeRung(v: VideoId, height: Option<int>)
    ensures LadderFor(v, height) != []
  {
    LadderShapes(v, height);
  }

  /** One more rung, behind the steps taken so far. */
  method EncodeNext(world: World, w: WorkerId, weather: Weather, ladder: seq<Rendition>, done: nat, ghost was: seq<Action>, ghost taken: seq<Action>)
    returns (raised: bool)
    requires world.Valid() && At(world.now, w, Encoding(ladder, done)) && JobOf(world.now, w).body.Event? && done < |ladder|
    requires Did(weather, w, was, world.states, world.trace, taken)
    modifies world
    ensures Later(world) && |old(world.trace)| < |world.trace|
    ensures raised <==> weather.encodeFails(done) || weather.putLost(done)
    ensures Did(weather, w, was, world.states, world.trace, taken + RungStep(weather, w, done, |ladder|))
    ensures HasJob(world.now, w)
    ensures JobOf(world.now, w) == JobOf(old(world.now), w).(
              pc := if raised then Raised
                    else if done + 1 < |ladder| then Encoding(ladder, done + 1)
                    else Announcing(ladder))
  {
    hide Run, Trace, Enabled, Apply, Did, RungStep;
    ghost var states, trace := world.states, world.trace;
    raised := EncodeOne(world, w, weather, ladder, done);
    DidBoth(weather, w, was, states, trace, taken, world.states, world.trace, RungStep(weather, w, done, |ladder|));
  }

  lemma NothingDid(weather: Weather, w: WorkerId, states: seq<State>, trace: seq<Action>)
    requires |states| == |trace| + 1
    ensures Did(weather, w, trace, states, trace, [])
  {
  }

  /** The steps of rung k alone. */
  ghost function RungStep(weather: Weather, w: WorkerId, k: nat, n: nat): seq<Action> {
    if weather.encodeFails(k) then [RaiseInWork(w)]
    else if weather.putLost(k) then [PutRendition(w, true)]
    else if k + 1 < n then [PutRendition(w, false), PatchProgress(w)]
    else [PutRendition(w, false)]
  }

  lemma OneRungOn(weather: Weather, w: WorkerId, taken: seq<Action>, k: nat, n: nat)
    requires k < n
    ensures taken + RungSteps(weather, w, k, n) ==
            taken + RungStep(weather, w, k, n) + if weather.encodeFails(k) || weather.putLost(k) then [] else RungSteps(weather, w, k + 1, n)
  {
  }

  method EncodeOne(world: World, w: WorkerId, weather: Weather, ladder: seq<Rendition>, done: nat) returns (raised: bool)
    requires world.Valid() && At(world.now, w, Encoding(ladder, done)) && JobOf(world.now, w).body.Event? && done < |ladder|
    modifies world
    ensures raised <==> weather.encodeFails(done) || weather.putLost(done)
    ensures Took(world, w, weather, RungStep(weather, w, done, |ladder|)) && |old(world.trace)| < |world.trace|
    ensures HasJob(world.now, w)
    ensures JobOf(world.now, w) == JobOf(old(world.now), w).(
              pc := if raised then Raised
                    else if done + 1 < |ladder| then Encoding(ladder, done + 1)
                    else Announcing(ladder))
  {
    hide Run, Trace, Did, OwnSteps;
    ghost var was := world.trace;
    Others(world, w, weather, 9 + done);
    ghost var states, trace := world.states, world.trace;
    raised := PutOne(world, w, weather, ladder, done);
    ghost var put := if weather.encodeFails(done) then RaiseInWork(w) else PutRendition(w, raised);
    DidBoth(weather, w, was, states, trace, [], world.states, world.trace, [put]);
    assert [] + [put] == [put];
    if !raised && done + 1 < |ladder| {
      states, trace := world.states, world.trace;
      ReportProgress(world, w, weather, ladder, done + 1);
      DidBoth(weather, w, was, states, trace, [put], world.states, world.trace, [PatchProgress(w)]);
      assert [put] + [PatchProgress(w)] == [put, PatchProgress(w)];
    }
  }

  method PutOne(world: World, w: WorkerId, weather: Weather, ladder: seq<Rendition>, done: nat) returns (raised: bool)
    requires world.Valid() && At(world.now, w, Encoding(ladder, done)) && JobOf(world.now, w).body.Event? && done < |ladder|
    modifies world
    ensures raised <==> weather.encodeFails(done) || weather.putLost(done)
    ensures Took(world, w, weather, [if weather.encodeFails(done) then RaiseInWork(w) else PutRendition(w, raised)])
    ensures |old(world.trace)| < |world.trace|
    ensures HasJob(world.now, w)
    ensures JobOf(world.now, w) == JobOf(old(world.now), w).(
              pc := if raised then Raised
                    else if done + 1 < |ladder| then Reporting(ladder, done + 1)
                    else Announcing(ladder))
  {
    hide Run, Trace, Did, OwnSteps;
    if weather.encodeFails(done) {
      Step(world, w, weather, RaiseInWork(w), Raised);
      return true;
    }
    raised := weather.putLost(done);
    var next := if raised then Raised else if done + 1 < |ladder| then Reporting(ladder, done + 1) else Announcing(ladder);
    Step(world, w, weather, PutRendition(w, raised), next);
  }

  /** The incremental update between rungs; its result is ignored. */
  method ReportProgress(world: World, w: WorkerId, weather: Weather, ladder: seq<Rendition>, done: nat)
    requires world.Valid() && At(world.now, w, Reporting(ladder, done)) && JobOf(world.now, w).body.Event? && done <= |ladder|
    modifies world
    ensures Took(world, w, weather, [PatchProgress(w)])
    ensures HasJob(world.now, w) && JobOf(world.now, w) == JobOf(old(world.now), w).(pc := Encoding(ladder, done))
  {
    hide Run, Trace, Did;
    Step(world, w, weather, PatchProgress(w), Encoding(ladder, done));
  }

  /** Leaving the temporary directory, the ready update and the raw cleanup. */
  method Finish(world: World, w: WorkerId, weather: Weather) returns (raised: bool, ghost reply: nat)
    requires world.Valid() && HasJob(world.now, w) && JobOf(world.now, w).body.Event? && JobOf(world.now, w).pc.Announcing?
    modifies world
    ensures Later(world) && |old(world.trace)| <= reply < |world.trace|
    ensures HasJob(world.now, w)
    ensures JobOf(world.now, w) == JobOf(old(world.now), w).(pc := if raised then Raised else Returned)
    ensures !raised ==> JobOf(old(world.now), w).event in world.now.broker.returned
    ensures var committed := ReadyCommitted(world.states[reply], w);
            && (raised <==> weather.wrapUpFails || !weather.readyAnswered || !committed)
            && (!weather.wrapUpFails ==> world.trace[reply] == ReadyAnswer(w, weather.readyAnswered && committed))
            && Took(world, w, weather, AfterRungs(weather, w, committed))
  {
    hide Run, Trace, Did, OwnSteps, Enabled, Apply;
    ghost var was := world.trace;
    reply := |was|;
    if weather.wrapUpFails {
      GiveUp(world, w, weather);
      return true, reply;
    }
    var ok;
    ok, reply := AnnounceReady(world, w, weather);
    if !ok {
      return true, reply;
    }
    ghost var states, trace := world.states, world.trace;
    Others(world, w, weather, 3);
    DidBoth(weather, w, was, states, trace, [PatchReady(w), ReadyAnswer(w, true)], world.states, world.trace, []);
    states, trace := world.states, world.trace;
    CleanUp(world, w, weather, weather.keepRaw, !weather.keepRaw && weather.rawRemoved);
    ghost var clean := CleanRaw(w, weather.keepRaw, !weather.keepRaw && weather.rawRemoved);
    DidBoth(weather, w, was, states, trace, [PatchReady(w), ReadyAnswer(w, true)] + [], world.states, world.trace, [clean]);
    assert [PatchReady(w), ReadyAnswer(w, true)] + [] + [clean] == [PatchReady(w), ReadyAnswer(w, true), clean];
    return false, reply;
  }

  method GiveUp(world: World, w: WorkerId, weather: Weather)
    requires world.Valid() && HasJob(world.now, w) && JobOf(world.now, w).pc.Announcing?
    modifies world
    ensures Took(world, w, weather, [RaiseInWork(w)]) && |old(world.trace)| < |world.trace|
    ensures HasJob(world.now, w) && JobOf(world.now, w) == JobOf(old(world.now), w).(pc := Raised)
  {
    hide Run, Trace, Did;
    Step(world, w, weather, RaiseInWork(w), Raised);
  }

  /** PATCH ready and wait for the answer; only an answered, committed update lets the handler go on. */
  method AnnounceReady(world: World, w: WorkerId, weather: Weather) returns (ok: bool, ghost reply: nat)
    requires world.Valid() && HasJob(world.now, w) && JobOf(world.now, w).body.Event? && JobOf(world.now, w).pc.Announcing?
    modifies world
    ensures Took(world, w, weather, [PatchReady(w), ReadyAnswer(w, ok)])
    ensures |old(world.trace)| <= reply < |world.trace| && world.trace[reply] == ReadyAnswer(w, ok)
    ensures ok <==> weather.readyAnswered && ReadyCommitted(world.states[reply], w)
    ensures HasJob(world.now, w)
    ensures JobOf(world.now, w) == JobOf(old(world.now), w).(pc := if ok then Cleaning else Raised)
  {
    hide Run, Trace, Did, OwnSteps, Enabled, Apply;
    ghost var was := world.trace;
    SendReady(world, w, weather);
    ghost var states, trace := world.states, world.trace;
    Others(world, w, weather, 2);
    DidBoth(weather, w, was, states, trace, [PatchReady(w)], world.states, world.trace, []);
    states, trace := world.states, world.trace;
    ok, reply := AwaitReady(world, w, weather);
    DidBoth(weather, w, was, states, trace, [PatchReady(w)] + [], world.states, world.trace, [ReadyAnswer(w, ok)]);
    assert [PatchReady(w)] + [] + [ReadyAnswer(w, ok)] == [PatchReady(w), ReadyAnswer(w, ok)];
  }

  method SendReady(world: World, w: WorkerId, weather: Weather)
    requires world.Valid() && HasJob(world.now, w) && JobOf(world.now, w).body.Event? && JobOf(world.now, w).pc.Announcing?
    modifies world
    ensures Took(world, w, weather, [PatchReady(w)])
    ensures HasJob(world.now, w) && JobOf(world.now, w).pc.AwaitingReady?
    ensures JobOf(world.now, w) == JobOf(old(world.now), w).(pc := JobOf(world.now, w).pc)
  {
    hide Run, Trace, Did;
    Step(world, w, weather, PatchReady(w), AwaitingReady(world.now.net.next));
  }

  method AwaitReady(world: World, w: WorkerId, weather: Weather) returns (ok: bool, ghost reply: nat)
    requires world.Valid() && HasJob(world.now, w) && JobOf(world.now, w).pc.AwaitingReady?
    modifies world
    ensures Took(world, w, weather, [ReadyAnswer(w, ok)])
    ensures reply == |old(world.trace)| && world.trace == old(world.trace) + [ReadyAnswer(w, ok)] && world.states[reply] == old(world.now)
    ensures ok <==> weather.readyAnswered && ReadyCommitted(old(world.now), w)
    ensures HasJob(world.now, w)
    ensures JobOf(world.now, w) == JobOf(old(world.now), w).(pc := if ok then Cleaning else Raised)
  {
    hide Run, Trace, Did;
    reply := |world.trace|;
    var r := JobOf(world.now, w).pc.request;
    ok := weather.readyAnswered && r in world.now.net.requests && world.now.net.requests[r].committed;
    Step(world, w, weather, ReadyAnswer(w, ok), if ok then Cleaning else Raised);
  }

  /** Raw removal, unless KEEP_RAW; its errors are logged only. */
  method CleanUp(world: World, w: WorkerId, weather: Weather, keep: bool, removed: bool)
    requires world.Valid() && At(world.now, w, Cleaning) && JobOf(world.now, w).body.Event? && (keep ==> !removed)
    modifies world
    ensures Took(world, w, weather, [CleanRaw(w, keep, removed)])
    ensures HasJob(world.now, w)
    ensures JobOf(world.now, w) == JobOf(old(world.now), w).(pc := Returned)
    ensures JobOf(old(world.now), w).event in world.now.broker.returned
  {
    hide Run, Trace, Did;
    Step(world, w, weather, CleanRaw(w, keep, removed), Returned);
  }

  // ----- handle_message -----

  /** How a handling ended. */
  datatype Outcome = Acknowledged | LeftUnacked | Requeued | Rejected

  /** The handler's calls once process_message has returned or raised; `count` is how often the event was retried. */
  ghost function SettleSteps(weather: Weather, w: WorkerId, raised: bool, count: nat): seq<Action> {
    if raised then ExceptSteps(weather, w, count)
    else if !weather.quiesced then [SkipAck(w)]
    else [Ack(w, Told(weather.ack))] + if weather.ack.raises then ExceptSteps(weather, w, count) else []
  }

  ghost function RetrySteps(weather: Weather, w: WorkerId): seq<Action> {
    if weather.republish.raises then [Republish(w, Told(weather.republish))]
    else [Republish(w, Told(weather.republish)), AckOriginal(w, Told(weather.ackOriginal))]
  }

  /** The except block: retry while retries are left, else and when that fails send `failed` and reject. */
  ghost function ExceptSteps(weather: Weather, w: WorkerId, count: nat): seq<Action> {
    (if count < MAX_RETRIES then RetrySteps(weather, w) else [])
    + if count < MAX_RETRIES && !weather.republish.raises && !weather.ackOriginal.raises then []
      else [PatchFailed(w), Nack(w, Told(weather.nack))]
  }

  /**
   handle_message.  Whatever the others do meanwhile, the handling is a run of the pipeline that
   ends with the session free.  `done` is where process_message came out, returned or `raised`;
   from there the outcome is exactly what quiescence, the count and the calls' answers make it.
   */
  method HandleMessage(world: World, w: WorkerId, weather: Weather)
    returns (outcome: Outcome, ghost raised: bool, ghost at: Looks, ghost done: nat)
    requires world.Valid() && At(world.now, w, Start)
    modifies world
    ensures Later(world)
    ensures w in world.now.workers && !HasJob(world.now, w)
    ensures |old(world.trace)| <= done <= |world.trace|
    ensures Processed(weather, w, JobOf(old(world.now), w).body, old(world.trace), world.states[..done + 1], world.trace[..done], raised, at)
    ensures var count := JobOf(old(world.now), w).count;
            && Did(weather, w, world.trace[..done], world.states, world.trace, SettleSteps(weather, w, raised, count))
            && (outcome == Acknowledged <==> !raised && weather.quiesced && !weather.ack.raises)
            && (outcome == LeftUnacked <==> !raised && !weather.quiesced)
            && (outcome == Requeued <==>
                  && (raised || (weather.quiesced && weather.ack.raises))
                  && count < MAX_RETRIES && !weather.republish.raises && !weather.ackOriginal.raises)
    ensures outcome == Acknowledged || outcome == LeftUnacked ==> JobOf(old(world.now), w).event in world.now.broker.returned
  {
    hide Run, Trace, Enabled, Apply, Did, OwnSteps, Processed, ExceptSteps;
    raised, at := ProcessMessage(world, w, weather);
    done := |world.trace|;
    ghost var processed, was := world.states, world.trace;
    outcome := Settle(world, w, weather);
    assert world.trace[..done] == was && world.states[..done + 1] == processed;
  }

  /** From the end of process_message to the end of handle_message. */
  method Settle(world: World, w: WorkerId, weather: Weather) returns (outcome: Outcome)
    requires world.Valid() && (At(world.now, w, Returned) || At(world.now, w, Raised))
    modifies world
    ensures var j := JobOf(old(world.now), w);
            var raised := j.pc == Raised;
            && Took(world, w, weather, SettleSteps(weather, w, raised, j.count))
            && (outcome == Acknowledged <==> !raised && weather.quiesced && !weather.ack.raises)
            && (outcome == LeftUnacked <==> !raised && !weather.quiesced)
            && (outcome == Requeued <==>
                  && (raised || (weather.quiesced && weather.ack.raises))
                  && j.count < MAX_RETRIES && !weather.republish.raises && !weather.ackOriginal.raises)
    ensures w in world.now.workers && !HasJob(world.now, w)
  {
    hide Run, Trace, Enabled, Apply, Did, OwnSteps, ExceptSteps;
    if JobOf(world.now, w).pc == Raised {
      var requeued := Except(world, w, weather);
      return if requeued then Requeued else Rejected;
    }
    ghost var was := world.trace;
    Others(world, w, weather, 4);
    ghost var states, trace := world.states, world.trace;
    var acked := AckReturned(world, w, weather);
    ghost var step := if weather.quiesced then Ack(w, Told(weather.ack)) else SkipAck(w);
    DidBoth(weather, w, was, states, trace, [], world.states, world.trace, [step]);
    assert [] + [step] == [step] && [step] + [] == [step];
    if acked.Some? {
      return acked.value;
    }
    states, trace := world.states, world.trace;
    var requeued := Except(world, w, weather);
    DidBoth(weather, w, was, states, trace, [step], world.states, world.trace, ExceptSteps(weather, w, JobOf(old(world.now), w).count));
    return if requeued then Requeued else Rejected;
  }

  /** After a normal return: skip the ack when the heartbeat thread is still running, else ack; None when the ack raised. */
  method AckReturned(world: World, w: WorkerId, weather: Weather) returns (outcome: Option<Outcome>)
    requires world.Valid() && At(world.now, w, Returned)
    modifies world
    ensures Took(world, w, weather, [if weather.quiesced then Ack(w, Told(weather.ack)) else SkipAck(w)])
    ensures outcome.Some? ==> w in world.now.workers && !HasJob(world.now, w)
    ensures outcome.None? ==> HasJob(world.now, w) && JobOf(world.now, w) == JobOf(old(world.now), w).(pc := Raised)
    ensures outcome == if !weather.quiesced then Some(LeftUnacked) else if weather.ack.raises then None else Some(Acknowledged)
  {
    hide Run, Trace, Did, OwnSteps;
    if !weather.quiesced {
      Take(world, w, weather, SkipAck(w));
      return Some(LeftUnacked);
    }
    var ack := Possible(world.now, w, weather.ack);
    Take(world, w, weather, Ack(w, ack));
    return if ack.raises then None else Some(Acknowledged);
  }

  /** What the broker makes of a call on w: nothing on a dead session or a message it no longer holds. */
  function Possible(s: State, w: WorkerId, c: Call): Call
    requires HasJob(s, w)
  {
    Call(c.taken && s.workers[w].connected && Holds(s.broker, w, JobOf(s, w).msg), c.raises)
  }

  /** The except block: retry, or send failed and reject. */
  method Except(world: World, w: WorkerId, weather: Weather) returns (requeued: bool)
    requires world.Valid() && At(world.now, w, Raised)
    modifies world
    ensures Took(world, w, weather, ExceptSteps(weather, w, JobOf(old(world.now), w).count))
    ensures requeued <==> JobOf(old(world.now), w).count < MAX_RETRIES && !weather.republish.raises && !weather.ackOriginal.raises
    ensures w in world.now.workers && !HasJob(world.now, w)
  {
    hide Run, Trace, Enabled, Apply, Did, OwnSteps;
    ghost var was := world.trace;
    Others(world, w, weather, 5);
    ghost var tried: seq<Action> := [];
    requeued := false;
    if JobOf(world.now, w).count < MAX_RETRIES {
      ghost var states, trace := world.states, world.trace;
      requeued := Retry(world, w, weather);
      tried := RetrySteps(weather, w);
      DidBoth(weather, w, was, states, trace, [], world.states, world.trace, tried);
      assert [] + tried == tried;
      if requeued {
        assert tried + [] == tried;
        return;
      }
    }
    ghost var states, trace := world.states, world.trace;
    MarkFailedAndReject(world, w, weather);
    ghost var rest := [PatchFailed(w), Nack(w, Told(weather.nack))];
    DidBoth(weather, w, was, states, trace, tried, world.states, world.trace, rest);
  }

  /** Republish to the retry queue, then ack the original; false when either call raised. */
  method Retry(world: World, w: WorkerId, weather: Weather) returns (requeued: bool)
    requires world.Valid() && At(world.now, w, Raised) && JobOf(world.now, w).count < MAX_RETRIES
    modifies world
    ensures Took(world, w, weather, RetrySteps(weather, w))
    ensures requeued ==> w in world.now.workers && !HasJob(world.now, w)
    ensures !requeued ==> HasJob(world.now, w) && JobOf(world.now, w) == JobOf(old(world.now), w).(pc := Failing(true))
    ensures requeued <==> !weather.republish.raises && !weather.ackOriginal.raises
  {
    hide Run, Trace, Enabled, Apply, Did, OwnSteps;
    ghost var was := world.trace;
    PublishRetry(world, w, weather);
    ghost var first := Republish(w, Told(weather.republish));
    if weather.republish.raises {
      return false;
    }
    ghost var states, trace := world.states, world.trace;
    Others(world, w, weather, 6);
    DidBoth(weather, w, was, states, trace, [first], world.states, world.trace, []);
    states, trace := world.states, world.trace;
    requeued := AckRepublished(world, w, weather);
    ghost var second := AckOriginal(w, Told(weather.ackOriginal));
    DidBoth(weather, w, was, states, trace, [first] + [], world.states, world.trace, [second]);
    assert [first] + [] + [second] == [first, second];
  }

  method PublishRetry(world: World, w: WorkerId, weather: Weather)
    requires world.Valid() && At(world.now, w, Raised) && JobOf(world.now, w).count < MAX_RETRIES
    modifies world
    ensures Took(world, w, weather, [Republish(w, Told(weather.republish))])
    ensures HasJob(world.now, w)
    ensures JobOf(world.now, w) == JobOf(old(world.now), w).(pc := if weather.republish.raises then Failing(true) else Republished)
  {
    hide Run, Trace, Did, OwnSteps;
    var republish := Possible(world.now, w, weather.republish);
    Take(world, w, weather, Republish(w, republish));
  }

  /** The ack after a republish: the broker only takes it once it has the retry copy. */
  method AckRepublished(world: World, w: WorkerId, weather: Weather) returns (done: bool)
    requires world.Valid() && At(world.now, w, Republished)
    modifies world
    ensures Took(world, w, weather, [AckOriginal(w, Told(weather.ackOriginal))])
    ensures done ==> w in world.now.workers && !HasJob(world.now, w)
    ensures !done ==> HasJob(world.now, w) && JobOf(world.now, w) == JobOf(old(world.now), w).(pc := Failing(true))
    ensures done == !weather.ackOriginal.raises
  {
    hide Run, Trace, Did, OwnSteps;
    var call := Possible(world.now, w, weather.ackOriginal);
    var ack := Call(call.taken && world.now.broker.msgs[JobOf(world.now, w).msg].place.spent, call.raises);
    Take(world, w, weather, AckOriginal(w, ack));
    return !ack.raises;
  }

  /** The end of both except blocks: send failed, ignore its result, nack without requeue. */
  method MarkFailedAndReject(world: World, w: WorkerId, weather: Weather)
    requires world.Valid() && SettleEnabled(world.now, PatchFailed(w))
    modifies world
    ensures Took(world, w, weather, [PatchFailed(w), Nack(w, Told(weather.nack))])
    ensures w in world.now.workers && !HasJob(world.now, w)
  {
    hide Run, Trace, Did, OwnSteps;
    ghost var was := world.trace;
    Take(world, w, weather, PatchFailed(w));
    ghost var states, trace := world.states, world.trace;
    Others(world, w, weather, 7);
    DidBoth(weather, w, was, states, trace, [PatchFailed(w)], world.states, world.trace, []);
    states, trace := world.states, world.trace;
    var nack := Possible(world.now, w, weather.nack);
    Take(world, w, weather, Nack(w, nack));
    ghost var last := Nack(w, Told(weather.nack));
    DidBoth(weather, w, was, states, trace, [PatchFailed(w)] + [], world.states, world.trace, [last]);
    assert [PatchFailed(w)] + [] + [last] == [PatchFailed(w), last];
  }

  // ----- a finished video -----

  /** Each of w's own steps is in the list of them. */
  lemma {:induction false} StepsAreListed(was: seq<Action>, trace: seq<Action>, w: WorkerId, steps: seq<Action>, i: nat)
    requires was <= trace && OwnSteps(trace, w) == OwnSteps(was, w) + steps
    requires |was| <= i < |trace| && OwnStep(trace[i], w)
    ensures Seen(trace[i]) in steps
    decreases |trace|
  {
    var last := |trace| - 1;
    OwnStepsGrow(was, trace[..last], w);
    var before := OwnSteps(trace[..last], w)[|OwnSteps(was, w)|..];
    assert steps == OwnSteps(trace, w)[|OwnSteps(was, w)|..];
    if i < last {
      assert OwnSteps(trace[..last], w) == OwnSteps(was, w) + before;
      StepsAreListed(was, trace[..last], w, before, i);
      assert before <= steps;
    } else {
      assert steps[|steps| - 1] == Seen(trace[i]);
    }
  }

  lemma {:induction false} OwnStepsGrow(was: seq<Action>, trace: seq<Action>, w: WorkerId)
    requires was <= trace
    ensures OwnSteps(was, w) <= OwnSteps(trace, w)
    decreases |trace|
  {
    if |was| < |trace| {
      OwnStepsGrow(was, trace[..|trace| - 1], w);
    } else {
      assert was == trace;
    }
  }

  /**
   A redelivery of a ready or failed video whose status read is answered is harmless by itself:
   process_message returns, and no step of its own changes a table, an object or a message or
   sends a request, whatever the others do.
   */
  lemma SkippedIsHarmless(weather: Weather, w: WorkerId, v: VideoId, was: seq<Action>, states: seq<State>, trace: seq<Action>,
                          raised: bool, at: Looks, i: nat)
    requires Processed(weather, w, Event(v), was, states, trace, raised, at) && Trace(states, trace)
    requires weather.readable && Finished(states[at.read], v)
    ensures !raised
    ensures |was| <= i < |trace| && OwnStep(trace[i], w) ==>
              && states[i + 1].store == states[i].store && states[i + 1].net == states[i].net
              && states[i + 1].broker.msgs == states[i].broker.msgs
  {
    if |was| <= i < |trace| && OwnStep(trace[i], w) {
      StepsAreListed(was, trace, w, [ReadStatus(w, true)], i);
      assert Enabled(states[i], trace[i]) && states[i + 1] == Apply(states[i], trace[i]);
    }
  }
}
