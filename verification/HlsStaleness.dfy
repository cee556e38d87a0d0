/**
 The read-through around the metadata cache, with any number of requests in flight.
 */
module HlsStaleness {
  import opened Common
  import opened MetaCache
  import MetaCacheHeap

  datatype Visibility = Public | Unlisted | Private

  datatype Meta = Meta(owner: string, visibility: Visibility)

  /** What metadata says about a video: its metadata, or a status other than 200. */
  datatype Answer = Found(meta: Meta) | Refused(status: int)

  const NOT_FOUND: int := 404
  const FORBIDDEN: int := 403

  /** Only answers and 404/403 are stored. */
  predicate Cacheable(a: Answer) {
    a.Found? || a.status == NOT_FOUND || a.status == FORBIDDEN
  }

  datatype Config = Config(max: nat, ttl: int, negTtl: int, timeout: int, slack: int)

  /** metaCacheMaxEntries, metaCacheTTL, metaNegCacheTTL and hlsMetaClient.Timeout, in milliseconds. */
  function Deployed(slack: int): Config {
    Config(4096, 10000, 5000, 3000, slack)
  }

  ghost predicate Sane(c: Config) {
    c.max >= 1 && c.ttl >= 0 && c.negTtl >= 0 && c.timeout >= 0 && c.slack >= 0
  }

  datatype Fetch = Fetch(video: VideoKey, started: int, said: Option<(Answer, int)>, ended: Option<int>)

  /** A request decided on an answer, with what was true of the video at that moment and since when. */
  datatype Decision = Decision(video: VideoKey, basis: Answer, at: int, truth: Answer, since: Option<int>)

  /**
   Time passes only as far as the HTTP client's timeout lets a fetch run, and as far as
   a finished fetch may wait for its goroutine to store it (`slack`).  Metadata answers
   at some moment inside the fetch, slow fetches may land after faster later ones, and
   the owner may change a video at any moment.
   */
  datatype State = State(
    now: int,
    truth: map<VideoKey, Answer>,
    since: map<VideoKey, int>,
    cache: seq<Entry<Meta>>,
    fetches: map<nat, Fetch>,
    said: set<(VideoKey, Answer, int)>,
    decisions: set<Decision>)

  function Start(now: int): State {
    State(now, map[], map[], [], map[], {}, {})
  }

  function Truth(s: State, v: VideoKey): Answer {
    if v in s.truth then s.truth[v] else Refused(NOT_FOUND)
  }

  datatype Action =
    | Tick(d: int)
    | Change(v: VideoKey, a: Answer)
    | Ask(f: nat, v: VideoKey)        // a request: a hit decides, a miss starts fetch f
    | Say(f: nat)                     // metadata answers fetch f
    | Land(f: nat)                    // the answer has been read in full
    | Break(f: nat)                   // timeout, refused connection, unreadable body
    | Store(f: nat)                   // put, then decide

  /** A fetch may still run until its timeout, and wait to be stored for the slack. */
  predicate MayWait(c: Config, g: Fetch, now: int) {
    if g.ended.Some? then now <= g.ended.value + c.slack else now <= g.started + c.timeout
  }

  ghost predicate Enabled(c: Config, s: State, a: Action) {
    match a
    case Tick(d) => d >= 0 && forall f :: f in s.fetches ==> MayWait(c, s.fetches[f], s.now + d)
    case Change(v, x) => true
    case Ask(f, v) => f !in s.fetches
    case Say(f) => f in s.fetches && s.fetches[f].said.None? && s.fetches[f].ended.None?
    case Land(f) => f in s.fetches && s.fetches[f].said.Some? && s.fetches[f].ended.None?
    case Break(f) => f in s.fetches && s.fetches[f].ended.None?
    case Store(f) => f in s.fetches && s.fetches[f].ended.Some? && s.fetches[f].said.Some?
  }

  /** The answer an entry stands for. */
  function AnswerOf(e: Entry<Meta>): Answer {
    if e.meta.Some? then Found(e.meta.value) else Refused(e.errStatus)
  }

  function MetaOf(a: Answer): Option<Meta> {
    if a.Found? then Some(a.meta) else None
  }

  function StatusOf(a: Answer): int {
    if a.Found? then 0 else a.status
  }

  function EntryFor(c: Config, v: VideoKey, a: Answer, now: int): Entry<Meta> {
    EntryWith(c.ttl, c.negTtl, v, a, now)
  }

  function EntryWith(ttl: int, negTtl: int, v: VideoKey, a: Answer, now: int): Entry<Meta> {
    Entry(v, MetaOf(a), StatusOf(a), now + Lifetime(ttl, negTtl, StatusOf(a)))
  }

  function Decide(s: State, v: VideoKey, a: Answer): State {
    s.(decisions := s.decisions + {Decision(v, a, s.now, Truth(s, v), if v in s.since then Some(s.since[v]) else None)})
  }

  function Apply(c: Config, s: State, a: Action): State
    requires a.Say? || a.Land? || a.Break? || a.Store? ==> a.f in s.fetches
    requires a.Store? ==> s.fetches[a.f].said.Some?
  {
    match a
    case Tick(d) => s.(now := s.now + d)
    case Change(v, x) => s.(truth := s.truth[v := x], since := s.since[v := s.now])
    case Ask(f, v) =>
      var (cache, hit) := Get(s.cache, v, s.now);
      if hit.Some? then Decide(s.(cache := cache), v, AnswerOf(hit.value))
      else s.(cache := cache, fetches := s.fetches[f := Fetch(v, s.now, None, None)])
    case Say(f) =>
      var v := s.fetches[f].video;
      s.(fetches := s.fetches[f := s.fetches[f].(said := Some((Truth(s, v), s.now)))],
         said := s.said + {(v, Truth(s, v), s.now)})
    case Land(f) => s.(fetches := s.fetches[f := s.fetches[f].(ended := Some(s.now))])
    case Break(f) => s.(fetches := s.fetches - {f})
    case Store(f) =>
      var g := s.fetches[f];
      var x := g.said.value.0;
      var cache := if Cacheable(x) then Put(s.cache, c.max, EntryFor(c, g.video, x, s.now)) else s.cache;
      Decide(s.(cache := cache, fetches := s.fetches - {f}), g.video, x)
  }

  ghost predicate Run(c: Config, s: State, acts: seq<Action>, t: State)
    decreases acts
  {
    if acts == [] then s == t
    else Enabled(c, s, acts[0]) && Run(c, Apply(c, s, acts[0]), acts[1..], t)
  }

  // ----- the invariant -----

  /** How old an answer may be when it is used. */
  function Window(c: Config, a: Answer): int {
    c.timeout + c.slack + if a.Found? then c.ttl else c.negTtl
  }

  /** The entry holds an answer metadata gave, and lapses before that answer is older than its window. */
  ghost predicate EntryOk(c: Config, s: State, e: Entry<Meta>) {
    && (e.meta.Some? <==> e.errStatus == 0)
    && Cacheable(AnswerOf(e))
    && exists a :: (e.key, AnswerOf(e), a) in s.said && e.expires <= a + Window(c, AnswerOf(e))
  }

  ghost predicate FetchOk(c: Config, s: State, g: Fetch) {
    && g.started <= s.now
    && MayWait(c, g, s.now)
    && (g.ended.Some? ==> g.ended.value <= g.started + c.timeout)
    && (g.said.Some? ==>
          && g.started <= g.said.value.1
          && (g.video, g.said.value.0, g.said.value.1) in s.said)
  }

  /** An answer given after the last change of its video is the current truth. */
  ghost predicate SaidOk(s: State, h: (VideoKey, Answer, int)) {
    && h.2 <= s.now
    && ((h.0 !in s.since || s.since[h.0] < h.2) ==> h.1 == Truth(s, h.0))
  }

  /** A decision used an answer given within the window before it, and if the video had not changed in the window, the truth. */
  ghost predicate DecisionOk(c: Config, s: State, d: Decision) {
    && (exists a :: (d.video, d.basis, a) in s.said && d.at - Window(c, d.basis) <= a <= d.at)
    && ((d.since.None? || d.since.value < d.at - Window(c, d.basis)) ==> d.basis == d.truth)
  }

  ghost predicate Inv(c: Config, s: State) {
    && Distinct(s.cache)
    && |s.cache| <= c.max
    && (forall v :: v in s.since ==> s.since[v] <= s.now)
    && (forall i :: 0 <= i < |s.cache| ==> EntryOk(c, s, s.cache[i]))
    && (forall f :: f in s.fetches ==> FetchOk(c, s, s.fetches[f]))
    && (forall h :: h in s.said ==> SaidOk(s, h))
    && (forall d :: d in s.decisions ==> DecisionOk(c, s, d))
  }

  /** Deciding on an answer that is in the window keeps the invariant. */
  lemma DecideKeeps(c: Config, s: State, v: VideoKey, x: Answer, a: int)
    requires Inv(c, s) && (v, x, a) in s.said && s.now - Window(c, x) <= a
    ensures Inv(c, Decide(s, v, x))
  {
  }

  /** Entries of the cache after a get or a put are old entries or the new one. */
  lemma EntriesStay(c: seq<Entry<Meta>>, max: nat, k: VideoKey, now: int, e: Entry<Meta>)
    ensures forall i :: 0 <= i < |Get(c, k, now).0| ==> Get(c, k, now).0[i] in c
    ensures Get(c, k, now).1.Some? ==> Get(c, k, now).1.value in c && Get(c, k, now).1.value.key == k && now <= Get(c, k, now).1.value.expires
    ensures forall i :: 0 <= i < |Put(c, max, e)| ==> Put(c, max, e)[i] in c || Put(c, max, e)[i] == e
  {
  }

  lemma AskKeeps(c: Config, s: State, f: nat, v: VideoKey)
    requires Sane(c) && Inv(c, s) && Enabled(c, s, Ask(f, v))
    ensures Inv(c, Apply(c, s, Ask(f, v)))
  {
    var (cache, hit) := Get(s.cache, v, s.now);
    var none := Entry(v, None, NOT_FOUND, 0);
    EntriesStay(s.cache, c.max, v, s.now, none);
    StaysSmallAndDistinct(s.cache, c.max, v, s.now, none);
    var u := s.(cache := cache);
    assert Inv(c, u) by {
      forall i | 0 <= i < |cache| ensures EntryOk(c, u, cache[i]) {
        var j :| 0 <= j < |s.cache| && s.cache[j] == cache[i];
        assert EntryOk(c, s, s.cache[j]);
      }
      NothingElseMoved(c, s, u);
    }
    if hit.Some? {
      var j :| 0 <= j < |s.cache| && s.cache[j] == hit.value;
      assert EntryOk(c, s, s.cache[j]);
      var a :| (v, AnswerOf(hit.value), a) in s.said && hit.value.expires <= a + Window(c, AnswerOf(hit.value));
      DecideKeeps(c, u, v, AnswerOf(hit.value), a);
    } else {
      var t := Apply(c, s, Ask(f, v));
      NothingElseMoved(c, u, t);
      forall i | 0 <= i < |t.cache| ensures EntryOk(c, t, t.cache[i]) {
        assert EntryOk(c, u, u.cache[i]);
      }
    }
  }

  /** Answers and decisions stay in order while clock and truth stand still and the record of answers grows at most. */
  lemma NothingElseMoved(c: Config, s: State, t: State)
    requires Inv(c, s) && t.now == s.now && t.truth == s.truth && t.since == s.since
    requires t.said == s.said && t.decisions == s.decisions
    ensures forall h :: h in t.said ==> SaidOk(t, h)
    ensures forall d :: d in t.decisions ==> DecisionOk(c, t, d)
    ensures forall f :: f in s.fetches ==> FetchOk(c, t, s.fetches[f])
  {
  }

  lemma StoreKeeps(c: Config, s: State, f: nat)
    requires Sane(c) && Inv(c, s) && Enabled(c, s, Store(f))
    ensures Inv(c, Apply(c, s, Store(f)))
  {
    var g := s.fetches[f];
    var (x, a) := g.said.value;
    assert FetchOk(c, s, g);
    assert s.now <= a + c.timeout + c.slack;
    var e := EntryFor(c, g.video, x, s.now);
    var cache := if Cacheable(x) then Put(s.cache, c.max, e) else s.cache;
    var u := s.(cache := cache, fetches := s.fetches - {f});
    EntriesStay(s.cache, c.max, g.video, s.now, e);
    StaysSmallAndDistinct(s.cache, c.max, g.video, s.now, e);
    NothingElseMoved(c, s, u);
    assert Cacheable(x) ==> EntryOk(c, u, e) by {
      if Cacheable(x) {
        assert AnswerOf(e) == x && (e.key, AnswerOf(e), a) in u.said;
      }
    }
    forall i | 0 <= i < |cache| ensures EntryOk(c, u, cache[i]) {
      if cache[i] != e || !Cacheable(x) {
        var j :| 0 <= j < |s.cache| && s.cache[j] == cache[i];
        assert EntryOk(c, s, s.cache[j]);
      }
    }
    DecideKeeps(c, u, g.video, x, a);
  }

  lemma SayKeeps(c: Config, s: State, f: nat)
    requires Inv(c, s) && Enabled(c, s, Say(f))
    ensures Inv(c, Apply(c, s, Say(f)))
  {
  }

  /** Time passing, a change by the owner, a fetch ending either way. */
  lemma QuietKeeps(c: Config, s: State, a: Action)
    requires Sane(c) && Inv(c, s) && Enabled(c, s, a)
    requires a.Tick? || a.Change? || a.Land? || a.Break?
    ensures Inv(c, Apply(c, s, a))
  {
  }

  lemma StepKeeps(c: Config, s: State, a: Action)
    requires Sane(c) && Inv(c, s) && Enabled(c, s, a)
    ensures Inv(c, Apply(c, s, a))
  {
    match a
    case Ask(f, v) => AskKeeps(c, s, f, v);
    case Say(f) => SayKeeps(c, s, f);
    case Store(f) => StoreKeeps(c, s, f);
    case _ => QuietKeeps(c, s, a);
  }

  lemma {:induction false} RunKeeps(c: Config, s: State, acts: seq<Action>, t: State)
    requires Sane(c) && Inv(c, s) && Run(c, s, acts, t)
    ensures Inv(c, t)
    decreases acts
  {
    if acts != [] {
      StepKeeps(c, s, acts[0]);
      RunKeeps(c, Apply(c, s, acts[0]), acts[1..], t);
    }
  }

  // ----- main results -----

  /**
   Bounded staleness: with any number of concurrent requests and misses, including
   slow fetches that land after faster ones, every decision uses an answer metadata
   gave for that video at most ttl + timeout + slack before (negTtl for 404 and 403).
   If the video did not change within that window, the decision uses the truth.
   */
  lemma DecisionsAreFresh(c: Config, t0: int, acts: seq<Action>, t: State, d: Decision)
    requires Sane(c) && Run(c, Start(t0), acts, t) && d in t.decisions
    ensures exists a :: (d.video, d.basis, a) in t.said && d.at - Window(c, d.basis) <= a <= d.at
    ensures d.since.None? || d.since.value < d.at - Window(c, d.basis) ==> d.basis == d.truth
  {
    RunKeeps(c, Start(t0), acts, t);
    assert DecisionOk(c, t, d);
  }

  /** Errors other than 404 and 403 are never held, and the cache never outgrows its bound. */
  lemma OnlyAnswersAreHeld(c: Config, t0: int, acts: seq<Action>, t: State, i: nat)
    requires Sane(c) && Run(c, Start(t0), acts, t) && i < |t.cache|
    ensures t.cache[i].errStatus == 0 <==> t.cache[i].meta.Some?
    ensures t.cache[i].meta.None? ==> t.cache[i].errStatus == NOT_FOUND || t.cache[i].errStatus == FORBIDDEN
    ensures |t.cache| <= c.max
  {
    RunKeeps(c, Start(t0), acts, t);
    assert EntryOk(c, t, t.cache[i]);
  }

  /** In every run a decision that uses a video's metadata uses an answer at most `limit` old. */
  ghost predicate AnswersWithin(c: Config, limit: int) {
    forall t0, acts, t, d ::
      Run(c, Start(t0), acts, t) && d in t.decisions && d.basis.Found? ==>
        exists a :: (d.video, d.basis, a) in t.said && d.at - limit <= a <= d.at
  }

  /** A run that uses an answer as late as the window allows, although the video is gone since: a slow fetch, stored late, asked for last. */
  function SlowestUse(c: Config, v: VideoKey, m: Meta): seq<Action> {
    [Change(v, Found(m)), Ask(0, v), Say(0), Change(v, Refused(NOT_FOUND)),
     Tick(c.timeout), Land(0), Tick(c.slack), Store(0), Tick(c.ttl), Ask(1, v)]
  }

  lemma {:induction false} RunOn(c: Config, s: State, acts: seq<Action>, t: State, a: Action)
    requires Run(c, s, acts, t) && Enabled(c, t, a)
    ensures Run(c, s, acts + [a], Apply(c, t, a))
    decreases acts
  {
    if acts == [] {
      assert ([] + [a])[1..] == [];
      assert Run(c, Apply(c, s, a), [], Apply(c, s, a));
    } else {
      RunOn(c, Apply(c, s, acts[0]), acts[1..], t, a);
      assert (acts + [a])[1..] == acts[1..] + [a];
    }
  }

  /** The video is asked for. */
  lemma Asked(c: Config, v: VideoKey, m: Meta) returns (t: State)
    requires Sane(c)
    ensures Run(c, Start(0), SlowestUse(c, v, m)[..2], t)
    ensures t == State(0, map[v := Found(m)], map[v := 0], [], map[0 := Fetch(v, 0, None, None)], {}, {})
  {
    var acts := SlowestUse(c, v, m);
    var s := Start(0);
    assert Run(c, s, [], s);
    RunOn(c, s, [], s, acts[0]);
    var s1 := Apply(c, s, acts[0]);
    assert s1 == State(0, map[v := Found(m)], map[v := 0], [], map[], {}, {});
    assert acts[..1] == [] + [acts[0]] && acts[..2] == acts[..1] + [acts[1]];
    RunOn(c, s, acts[..1], s1, acts[1]);
    t := Apply(c, s1, acts[1]);
  }

  /** The answer is given at once, and the video goes. */
  lemma AnswerGiven(c: Config, v: VideoKey, m: Meta) returns (t: State)
    requires Sane(c)
    ensures Run(c, Start(0), SlowestUse(c, v, m)[..4], t)
    ensures t == State(0, map[v := Refused(NOT_FOUND)], map[v := 0], [], map[0 := Fetch(v, 0, Some((Found(m), 0)), None)],
                       {(v, Found(m), 0)}, {})
  {
    var acts := SlowestUse(c, v, m);
    var s := Start(0);
    var s2 := Asked(c, v, m);
    RunOn(c, s, acts[..2], s2, acts[2]);
    var s3 := Apply(c, s2, acts[2]);
    assert acts[..3] == acts[..2] + [acts[2]] && acts[..4] == acts[..3] + [acts[3]];
    RunOn(c, s, acts[..3], s3, acts[3]);
    t := Apply(c, s3, acts[3]);
  }

  /** It arrives as late as the timeout allows. */
  lemma AnswerLanded(c: Config, v: VideoKey, m: Meta) returns (t: State)
    requires Sane(c)
    ensures Run(c, Start(0), SlowestUse(c, v, m)[..6], t)
    ensures t == State(c.timeout, map[v := Refused(NOT_FOUND)], map[v := 0], [],
                       map[0 := Fetch(v, 0, Some((Found(m), 0)), Some(c.timeout))], {(v, Found(m), 0)}, {})
  {
    var acts := SlowestUse(c, v, m);
    var s := Start(0);
    var s4 := AnswerGiven(c, v, m);
    RunOn(c, s, acts[..4], s4, acts[4]);
    var s5 := Apply(c, s4, acts[4]);
    assert acts[..5] == acts[..4] + [acts[4]] && acts[..6] == acts[..5] + [acts[5]];
    RunOn(c, s, acts[..5], s5, acts[5]);
    t := Apply(c, s5, acts[5]);
  }

  /** It is stored as late as the slack allows. */
  lemma AnswerStored(c: Config, v: VideoKey, m: Meta) returns (t: State)
    requires Sane(c)
    ensures Run(c, Start(0), SlowestUse(c, v, m)[..8], t)
    ensures var e := EntryFor(c, v, Found(m), c.timeout + c.slack);
            && t.now == c.timeout + c.slack && t.truth == map[v := Refused(NOT_FOUND)] && t.since == map[v := 0]
            && t.cache == [e] && t.fetches == map[] && t.said == {(v, Found(m), 0)}
  {
    var acts := SlowestUse(c, v, m);
    var s := Start(0);
    var s6 := AnswerLanded(c, v, m);
    RunOn(c, s, acts[..6], s6, acts[6]);
    var s7 := Apply(c, s6, acts[6]);
    assert acts[..7] == acts[..6] + [acts[6]] && acts[..8] == acts[..7] + [acts[7]];
    RunOn(c, s, acts[..7], s7, acts[7]);
    t := Apply(c, s7, acts[7]);
    var e := EntryFor(c, v, Found(m), c.timeout + c.slack);
    assert t.cache == Put([], c.max, e) == [e];
  }

  lemma WindowIsReached(c: Config, v: VideoKey, m: Meta) returns (t: State)
    requires Sane(c)
    ensures Run(c, Start(0), SlowestUse(c, v, m), t)
    ensures t.said == {(v, Found(m), 0)}
    ensures Decision(v, Found(m), Window(c, Found(m)), Refused(NOT_FOUND), Some(0)) in t.decisions
  {
    var acts := SlowestUse(c, v, m);
    var s := Start(0);
    var s8 := AnswerStored(c, v, m);
    var s9 := Apply(c, s8, acts[8]);
    RunOn(c, s, acts[..8], s8, acts[8]);
    t := Apply(c, s9, acts[9]);
    assert acts[..9] == acts[..8] + [acts[8]] && acts == acts[..9] + [acts[9]];
    RunOn(c, s, acts[..9], s9, acts[9]);
    var e := EntryFor(c, v, Found(m), c.timeout + c.slack);
    assert Get([e], v, s9.now).1 == Some(e);
  }

  /**
   The window is exact: metadata is never used longer than `limit` after it was given, over
   every run, exactly when ttl + timeout + slack is at most `limit`.
   */
  lemma WindowIsExact(c: Config, limit: int)
    requires Sane(c)
    ensures AnswersWithin(c, limit) <==> c.timeout + c.slack + c.ttl <= limit
  {
    if c.timeout + c.slack + c.ttl <= limit {
      forall t0, acts, t, d | Run(c, Start(t0), acts, t) && d in t.decisions && d.basis.Found?
        ensures exists a :: (d.video, d.basis, a) in t.said && d.at - limit <= a <= d.at
      {
        DecisionsAreFresh(c, t0, acts, t, d);
        var a :| (d.video, d.basis, a) in t.said && d.at - Window(c, d.basis) <= a <= d.at;
        assert d.at - limit <= a;
      }
    } else {
      var m := Meta("", Public);
      var v: VideoKey := "";
      var t := WindowIsReached(c, v, m);
      var d := Decision(v, Found(m), Window(c, Found(m)), Refused(NOT_FOUND), Some(0));
      assert d in t.decisions && d.basis.Found?;
      assert forall a :: (d.video, d.basis, a) in t.said ==> a == 0;
    }
  }

  /** As deployed, a change shows within 15 s exactly when a goroutine never waits longer than 2 s. */
  lemma DeployedWindow(slack: nat)
    ensures AnswersWithin(Deployed(slack), 15000) <==> slack <= 2000
    ensures Window(Deployed(slack), Refused(404)) == 8000 + slack && Deployed(slack).max == 4096
  {
    WindowIsExact(Deployed(slack), 15000);
  }

  // ----- what the decision is -----

  datatype Verdict = Serve | PassNotFound | BadGateway | Forbid

  /**
   HLSAuth after getMeta, which gives no answer when the fetch broke; token and access are the
   subjects of a valid HLS token and access token, if any.
   */
  function Judge(a: Option<Answer>, token: Option<string>, access: Option<string>): Verdict {
    match a
    case None => BadGateway
    case Some(Refused(st)) => if st == NOT_FOUND then PassNotFound else BadGateway
    case Some(Found(m)) =>
      if m.visibility == Public || m.visibility == Unlisted then Serve
      else if token == Some(m.owner) || access == Some(m.owner) then Serve
      else Forbid
  }

  ghost predicate IsOwner(owner: string, token: Option<string>, access: Option<string>) {
    token == Some(owner) || access == Some(owner)
  }

  /** Which answers give which verdict, over every answer and every pair of subjects. */
  lemma VerdictsExactly(a: Option<Answer>, token: Option<string>, access: Option<string>)
    ensures Judge(a, token, access) == Serve <==>
              exists owner, seen :: a == Some(Found(Meta(owner, seen))) && (seen == Private ==> IsOwner(owner, token, access))
    ensures Judge(a, token, access) == Forbid <==>
              exists owner :: a == Some(Found(Meta(owner, Private))) && !IsOwner(owner, token, access)
    ensures Judge(a, token, access) == PassNotFound <==> a == Some(Refused(404))
    ensures Judge(a, token, access) == BadGateway <==> a == None || exists st :: a == Some(Refused(st)) && st != 404
  {
    if a.Some? && a.value.Found? {
      assert a == Some(Found(Meta(a.value.meta.owner, a.value.meta.visibility)));
      assert a.value.meta.visibility == Private ==> a == Some(Found(Meta(a.value.meta.owner, Private)));
    } else if a.Some? {
      assert a == Some(Refused(a.value.status));
    }
  }

  /**
   What a video has been for longer than the window decides its requests, whatever the cache
   held before: public and unlisted it is served to everybody, private to its owner and to
   nobody else, absent it is left to the origin to miss, and any other refusal is a 502.
   */
  lemma VerdictsSettleWithinTheWindow(c: Config, t0: int, acts: seq<Action>, t: State, d: Decision, token: Option<string>, access: Option<string>)
    requires Sane(c) && Run(c, Start(t0), acts, t) && d in t.decisions
    requires d.since.None? || d.since.value < d.at - (c.timeout + c.slack + Max(c.ttl, c.negTtl))
    ensures var verdict := Judge(Some(d.basis), token, access);
            match d.truth
            case Found(m) =>
              if m.visibility == Public || m.visibility == Unlisted then verdict == Serve
              else if IsOwner(m.owner, token, access) then verdict == Serve else verdict == Forbid
            case Refused(st) => if st == 404 then verdict == PassNotFound else verdict == BadGateway
  {
    DecisionsAreFresh(c, t0, acts, t, d);
    VerdictsExactly(Some(d.basis), token, access);
  }

  /**
   A video that has been private longer than the window is served to its owner and to
   nobody else, whatever the cache held before.
   */
  lemma PrivateVideoClosesWithinTheWindow(c: Config, t0: int, acts: seq<Action>, t: State, d: Decision, owner: string, token: Option<string>, access: Option<string>)
    requires Sane(c) && Run(c, Start(t0), acts, t) && d in t.decisions
    requires d.truth == Found(Meta(owner, Private))
    requires d.since.None? || d.since.value < d.at - (c.timeout + c.slack + Max(c.ttl, c.negTtl))
    ensures Judge(Some(d.basis), token, access) == Serve <==> token == Some(owner) || access == Some(owner)
  {
    VerdictsSettleWithinTheWindow(c, t0, acts, t, d, token, access);
  }

  /**
   What is stored is used again: metadata for ttl, a 404 or 403 for negTtl and no longer, as
   long as nothing else is put; other refusals leave the cache as it was.
   */
  lemma StoredAnswersAreReused(c: Config, s: State, f: nat, now: int)
    requires Sane(c) && Inv(c, s) && Enabled(c, s, Store(f))
    ensures var g := s.fetches[f];
            var t := Apply(c, s, Store(f));
            match g.said.value.0
            case Found(m) =>
              Get(t.cache, g.video, now).1 == if now <= s.now + c.ttl then Some(Entry(g.video, Some(m), 0, s.now + c.ttl)) else None
            case Refused(st) =>
              if st == 404 || st == 403 then
                Get(t.cache, g.video, now).1 == if now <= s.now + c.negTtl then Some(Entry(g.video, None, st, s.now + c.negTtl)) else None
              else t.cache == s.cache
  {
    var g := s.fetches[f];
    var x := g.said.value.0;
    if Cacheable(x) {
      PutIsInFront(s.cache, c.max, EntryFor(c, g.video, x, s.now));
    }
  }

  lemma PutIsInFront(cache: seq<Entry<Meta>>, max: nat, e: Entry<Meta>)
    requires max >= 1
    ensures Put(cache, max, e) != [] && Put(cache, max, e)[0] == e
    ensures forall now :: Get(Put(cache, max, e), e.key, now).1 == if now <= e.expires then Some(e) else None
  {
  }

  // ----- getMeta over the cache object -----

  datatype FetchResult = Got(answer: Answer) | Broken

  /** getMeta: a hit answers at once; a miss fetches, stores what may be stored, and answers. */
  method GetMeta(cache: MetaCacheHeap.Cache<Meta>, c: Config, v: VideoKey, now: int, result: FetchResult, later: int)
    returns (answer: Option<Answer>)
    requires cache.Valid() && cache.max == c.max && cache.ttl == c.ttl && cache.negTtl == c.negTtl
    modifies cache.Footprint()
    ensures cache.Valid()
    ensures (cache.contents, answer) == GetMetaSpec(c, old(cache.contents), v, now, result, later)
  {
    var hit := cache.Get(v, now);
    if hit.Some? {
      return Some(AnswerOf(hit.value));
    }
    if result.Broken? {
      return None;
    }
    StoreAnswer(cache, v, result.answer, later);
    return Some(result.answer);
  }

  /**
   HLSAuth on one request: what getMeta answers decides, and subjects only matter to a private
   video.
   */
  method HlsAuth(cache: MetaCacheHeap.Cache<Meta>, c: Config, v: VideoKey, now: int, result: FetchResult, later: int,
                 token: Option<string>, access: Option<string>)
    returns (verdict: Verdict)
    requires cache.Valid() && cache.max == c.max && cache.ttl == c.ttl && cache.negTtl == c.negTtl
    modifies cache.Footprint()
    ensures cache.Valid() && cache.contents == GetMetaSpec(c, old(cache.contents), v, now, result, later).0
    ensures match GetMetaSpec(c, old(cache.contents), v, now, result, later).1
            case None => verdict == BadGateway
            case Some(Refused(st)) => verdict == if st == 404 then PassNotFound else BadGateway
            case Some(Found(m)) =>
              if m.visibility == Private && !IsOwner(m.owner, token, access) then verdict == Forbid else verdict == Serve
  {
    var answer := GetMeta(cache, c, v, now, result, later);
    return Judge(answer, token, access);
  }

  function GetMetaSpec(c: Config, held: seq<Entry<Meta>>, v: VideoKey, now: int, result: FetchResult, later: int)
    : (seq<Entry<Meta>>, Option<Answer>)
  {
    var (kept, hit) := Get(held, v, now);
    if hit.Some? then (kept, Some(AnswerOf(hit.value)))
    else if result.Broken? then (kept, None)
    else (if Cacheable(result.answer) then Put(kept, c.max, EntryFor(c, v, result.answer, later)) else kept, Some(result.answer))
  }

  /** The switch after the fetch: answers and 404/403 are stored, other statuses are not. */
  method StoreAnswer(cache: MetaCacheHeap.Cache<Meta>, v: VideoKey, a: Answer, later: int)
    requires cache.Valid()
    modifies cache, cache.lru, cache.lru.nodes
    ensures cache.Valid()
    ensures Cacheable(a) ==>
              cache.contents == Put(old(cache.contents), cache.max, EntryWith(cache.ttl, cache.negTtl, v, a, later))
    ensures !Cacheable(a) ==> cache.contents == old(cache.contents)
  {
    if !Cacheable(a) {
      return;
    }
    ghost var e := EntryWith(cache.ttl, cache.negTtl, v, a, later);
    cache.Put(v, MetaOf(a), StatusOf(a), later);
    assert cache.contents == Put(old(cache.contents), cache.max, e);
  }
}
