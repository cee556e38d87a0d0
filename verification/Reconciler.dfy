/**
 The upload service's reconciler: one pass over the rows that are stuck in 'uploaded',
 and how many passes clear them.
 */
module Reconciler {
  import opened Common

  type VideoId = nat

  // ----- limits -----

  /**
   New's default, then the metadata handler's and the repository's own bounds on the query's
   limit.  A pass looks at fewer rows than asked for exactly above 500, where it falls back to 100.
   */
  function EffectiveLimit(configured: int): (k: nat)
    ensures 1 <= k <= 500
    ensures k == if 1 <= configured <= 500 then configured else 100
    ensures k < configured <==> configured > 500
  {
    var asked := if configured <= 0 then 100 else configured;
    if asked <= 500 then asked else 100
  }

  // ----- lists of rows -----

  function Keep(rows: seq<VideoId>, gone: set<VideoId>): seq<VideoId> {
    if rows == [] then []
    else if rows[0] in gone then Keep(rows[1..], gone)
    else [rows[0]] + Keep(rows[1..], gone)
  }

  function Select(rows: seq<VideoId>, wanted: set<VideoId>): seq<VideoId> {
    if rows == [] then []
    else if rows[0] in wanted then [rows[0]] + Select(rows[1..], wanted)
    else Select(rows[1..], wanted)
  }

  predicate Distinct(rows: seq<VideoId>) {
    forall i, j :: 0 <= i < j < |rows| ==> rows[i] != rows[j]
  }

  function ToSet(rows: seq<VideoId>): set<VideoId> {
    set v | v in rows
  }

  lemma {:induction false} KeepAll(rows: seq<VideoId>, gone: set<VideoId>)
    requires forall v :: v in rows ==> v !in gone
    ensures Keep(rows, gone) == rows
  {
    if rows != [] {
      assert rows[0] in rows && forall v :: v in rows[1..] ==> v in rows;
      KeepAll(rows[1..], gone);
    }
  }

  /** Dropping the first n rows of a list without repetitions leaves the rest, in order. */
  lemma {:induction false} KeepDropsAPrefix(rows: seq<VideoId>, n: nat)
    requires Distinct(rows) && n <= |rows|
    ensures Keep(rows, ToSet(rows[..n])) == rows[n..]
    decreases n
  {
    if n == 0 {
      KeepAll(rows, ToSet(rows[..0]));
    } else {
      var rest := rows[1..];
      KeepDropsAPrefix(rest, n - 1);
      assert rows[..n] == [rows[0]] + rest[..n - 1];
      assert rows[0] !in rest;
      SameOnRest(rest, ToSet(rows[..n]), ToSet(rest[..n - 1]));
    }
  }

  lemma {:induction false} SameOnRest(rows: seq<VideoId>, a: set<VideoId>, b: set<VideoId>)
    requires forall v :: v in rows ==> (v in a <==> v in b)
    ensures Keep(rows, a) == Keep(rows, b)
  {
    if rows != [] {
      assert rows[0] in rows && forall v :: v in rows[1..] ==> v in rows;
      SameOnRest(rows[1..], a, b);
    }
  }

  lemma {:induction false} KeepTwice(rows: seq<VideoId>, a: set<VideoId>, b: set<VideoId>)
    ensures Keep(Keep(rows, a), b) == Keep(rows, a + b)
  {
    if rows != [] {
      KeepTwice(rows[1..], a, b);
      var rest := Keep(rows[1..], a);
      assert ([rows[0]] + rest)[1..] == rest;
    }
  }

  lemma {:induction false} SelectSnoc(rows: seq<VideoId>, v: VideoId, wanted: set<VideoId>)
    ensures Select(rows + [v], wanted) == Select(rows, wanted) + if v in wanted then [v] else []
  {
    if rows == [] {
      assert rows + [v] == [v];
    } else {
      assert (rows + [v])[1..] == rows[1..] + [v];
      SelectSnoc(rows[1..], v, wanted);
    }
  }

  lemma {:induction false} KeepStaysDistinct(rows: seq<VideoId>, gone: set<VideoId>)
    requires Distinct(rows)
    ensures Distinct(Keep(rows, gone))
    ensures forall v :: v in Keep(rows, gone) <==> v in rows && v !in gone
  {
    if rows != [] {
      KeepStaysDistinct(rows[1..], gone);
      assert forall v :: v in rows <==> v == rows[0] || v in rows[1..];
      assert rows[0] !in rows[1..];
    }
  }

  // ----- the services a pass talks to -----

  /** Which calls fail during one pass. */
  datatype Faults = Faults(
    list: bool,
    stat: set<VideoId>,
    publish: set<VideoId>,
    find: set<VideoId>,
    abort: set<VideoId>,
    setStatus: set<VideoId>)

  const HEALTHY := Faults(false, {}, {}, {}, {}, {})

  /** The handler's test: a stat that answers, with a size above zero. */
  predicate Found(raw: map<VideoId, nat>, v: VideoId, f: Faults) {
    v !in f.stat && v in raw && raw[v] > 0
  }

  /** The rows of a list that are published, and those that are failed. */
  function ToPublish(raw: map<VideoId, nat>, list: seq<VideoId>, f: Faults): set<VideoId> {
    set v | v in list && Found(raw, v, f) && v !in f.publish
  }

  function ToFail(raw: map<VideoId, nat>, list: seq<VideoId>, f: Faults): set<VideoId> {
    set v | v in list && !Found(raw, v, f) && v !in f.setStatus
  }

  function ToAbort(raw: map<VideoId, nat>, list: seq<VideoId>, f: Faults): set<VideoId> {
    set v | v in list && !Found(raw, v, f) && v !in f.find && v !in f.abort
  }

  lemma OneMoreRow(raw: map<VideoId, nat>, list: seq<VideoId>, i: nat, f: Faults)
    requires i < |list|
    ensures var v := list[i];
            var rows := list[..i];
            && ToFail(raw, list[..i + 1], f) ==
               (if Found(raw, v, f) || v in f.setStatus then ToFail(raw, rows, f) else ToFail(raw, rows, f) + {v})
            && ToAbort(raw, list[..i + 1], f) ==
               (if Found(raw, v, f) || v in f.find || v in f.abort then ToAbort(raw, rows, f) else ToAbort(raw, rows, f) + {v})
            && Select(list[..i + 1], ToPublish(raw, list, f)) ==
               Select(rows, ToPublish(raw, list, f)) + (if Found(raw, v, f) && v !in f.publish then [v] else [])
  {
    var v := list[i];
    var rows := list[..i];
    assert list[..i + 1] == rows + [v];
    assert forall u :: u in rows + [v] <==> u in rows || u == v;
    SelectSnoc(rows, v, ToPublish(raw, list, f));
    assert v in list;
  }

  /**
   Metadata rows, raw objects, multipart sessions and the queue, as far as the reconciler
   sees them.  `stale` holds the 'uploaded' rows older than the cut-off, oldest first.
   */
  class Reconciler {
    const limit: nat
    var stale: seq<VideoId>
    var failed: set<VideoId>
    var raw: map<VideoId, nat>
    var sessions: set<VideoId>
    var queue: seq<VideoId>

    ghost predicate Valid()
      reads this
    {
      limit >= 1 && Distinct(stale) && forall v :: v in stale ==> v !in failed
    }

    constructor (configured: int)
      ensures Valid() && limit == EffectiveLimit(configured) && stale == [] && queue == []
    {
      limit := EffectiveLimit(configured);
      stale, failed, raw, sessions, queue := [], {}, map[], {}, [];
    }

    function Listed(): seq<VideoId>
      reads this
    {
      stale[..Min(limit, |stale|)]
    }

    /** handle: republish what is there, give up what is not. */
    method Handle(v: VideoId, f: Faults)
      modifies `stale, `failed, `sessions, `queue
      ensures Found(raw, v, f) ==>
                && queue == old(queue) + (if v in f.publish then [] else [v])
                && stale == old(stale) && failed == old(failed) && sessions == old(sessions)
      ensures !Found(raw, v, f) ==>
                && queue == old(queue)
                && sessions == old(sessions) - (if v in f.find || v in f.abort then {} else {v})
                && stale == (if v in f.setStatus then old(stale) else Keep(old(stale), {v}))
                && failed == old(failed) + (if v in f.setStatus then {} else {v})
    {
      if v !in f.stat && v in raw && raw[v] > 0 {
        if v !in f.publish {
          queue := queue + [v];
        }
        return;
      }
      if v !in f.find && v in sessions {
        if v !in f.abort {
          sessions := sessions - {v};
        }
      }
      if v in f.setStatus {
        return;
      }
      stale := Keep(stale, {v});
      failed := failed + {v};
    }

    /**
     reconcile: one pass.  Of the first `limit` stale rows, those whose object was found are
     published once each, in order, and left as they are; the others are failed and their
     sessions aborted, as far as the services answer; no other row, session or message changes.

     Seen from a row: it is failed exactly when its stat erred or its object is absent or
     empty, so a finished upload is failed exactly when its stat erred, and one that is not
     there is never published.
     */
    method Reconcile(f: Faults)
      requires Valid()
      modifies `stale, `failed, `sessions, `queue
      ensures Valid()
      ensures f.list ==> stale == old(stale) && failed == old(failed) && sessions == old(sessions) && queue == old(queue)
      ensures !f.list ==>
                var list := old(Listed());
                && queue == old(queue) + Select(list, ToPublish(raw, list, f))
                && failed == old(failed) + ToFail(raw, list, f)
                && stale == Keep(old(stale), ToFail(raw, list, f))
                && sessions == old(sessions) - ToAbort(raw, list, f)
      ensures forall v :: v in old(stale) ==> (v in failed <==> v !in stale)
      ensures forall v :: v in old(stale) ==>
                (v in failed <==> !f.list && v in old(stale)[..Min(limit, |old(stale)|)]
                                  && (v in f.stat || v !in raw || raw[v] == 0) && v !in f.setStatus)
      ensures |old(queue)| <= |queue| && Distinct(queue[|old(queue)|..])
      ensures forall v :: v in queue[|old(queue)|..] <==>
                !f.list && v in old(stale)[..Min(limit, |old(stale)|)] && v !in f.stat && v in raw && raw[v] > 0 && v !in f.publish
      ensures forall v :: v in queue[|old(queue)|..] ==> v in stale
    {
      if f.list {
        assert queue[|old(queue)|..] == [];
        return;
      }
      var list := Listed();
      var i := 0;
      KeepAll(stale, {});
      assert list[..0] == [] && ToFail(raw, [], f) == {} && ToAbort(raw, [], f) == {};
      while i < |list|
        invariant 0 <= i <= |list|
        invariant queue == old(queue) + Select(list[..i], ToPublish(raw, list, f))
        invariant failed == old(failed) + ToFail(raw, list[..i], f)
        invariant stale == Keep(old(stale), ToFail(raw, list[..i], f))
        invariant sessions == old(sessions) - ToAbort(raw, list[..i], f)
      {
        var v := list[i];
        Handle(v, f);
        OneMoreRow(raw, list, i, f);
        KeepTwice(old(stale), ToFail(raw, list[..i], f), {v});
        i := i + 1;
      }
      assert list[..i] == list;
      KeepStaysDistinct(old(stale), ToFail(raw, list, f));
      assert queue[|old(queue)|..] == Select(list, ToPublish(raw, list, f));
      SelectedSet(list, ToPublish(raw, list, f));
      assert forall v :: v in queue[|old(queue)|..] <==> v in ToSet(queue[|old(queue)|..]);
    }

    /** Between two passes the transcoder takes every queued event, which moves its row out of 'uploaded'. */
    method Consume()
      requires Valid()
      modifies `stale, `queue
      ensures Valid()
      ensures queue == [] && stale == Keep(old(stale), ToSet(old(queue)))
    {
      KeepStaysDistinct(stale, ToSet(queue));
      stale, queue := Keep(stale, ToSet(queue)), [];
    }

    /** A healthy pass and the consumption of what it published clear the `limit` oldest stale rows. */
    method PassAndConsume()
      requires Valid() && queue == []
      modifies `stale, `failed, `sessions, `queue
      ensures Valid() && queue == []
      ensures stale == old(stale)[Min(limit, |old(stale)|)..]
    {
      ghost var list := Listed();
      ghost var lost := ToFail(raw, list, HEALTHY);
      ghost var found := ToPublish(raw, list, HEALTHY);
      Reconcile(HEALTHY);
      SelectedSet(list, found);
      KeepTwice(old(stale), lost, found);
      KeepDropsAPrefix(old(stale), |list|);
      Consume();
      assert ToSet([] + Select(list, found)) == found by {
        assert [] + Select(list, found) == Select(list, found);
      }
      assert lost + found == ToSet(list);
    }

    /**
     Run, tick after tick: with the services healthy, published events consumed between
     passes and no new stale rows, k passes clear the k * limit oldest, so
     ceil(n / limit) of them clear all n.
     */
    method Run(passes: nat)
      requires Valid() && queue == []
      modifies `stale, `failed, `sessions, `queue
      ensures Valid()
      ensures |stale| == Max(0, |old(stale)| - passes * limit)
      ensures stale == old(stale)[|old(stale)| - |stale|..]
      ensures passes >= (|old(stale)| + limit - 1) / limit ==> stale == []
    {
      var i := 0;
      while i < passes
        invariant 0 <= i <= passes
        invariant Valid() && queue == []
        invariant |stale| == Max(0, |old(stale)| - i * limit)
        invariant stale == old(stale)[|old(stale)| - |stale|..]
      {
        PassAndConsume();
        i := i + 1;
        assert i * limit == (i - 1) * limit + limit;
      }
      EnoughPasses(|old(stale)|, limit, passes);
    }
  }

  /** Selecting keeps exactly the wanted rows, and no row twice. */
  lemma {:induction false} SelectedSet(rows: seq<VideoId>, wanted: set<VideoId>)
    ensures ToSet(Select(rows, wanted)) == ToSet(rows) * wanted
    ensures Distinct(rows) ==> Distinct(Select(rows, wanted))
  {
    if rows != [] {
      SelectedSet(rows[1..], wanted);
      var rest := Select(rows[1..], wanted);
      assert forall v :: v in rows <==> v == rows[0] || v in rows[1..];
      assert forall v :: v in rest <==> v in ToSet(rest);
      assert forall v :: v in Select(rows, wanted) <==> (v == rows[0] && v in wanted) || v in rest;
      assert Distinct(rows) ==> rows[0] !in rest;
    }
  }

  lemma EnoughPasses(n: nat, limit: nat, passes: nat)
    requires limit >= 1
    ensures passes >= (n + limit - 1) / limit ==> n <= passes * limit
  {
    var q := (n + limit - 1) / limit;
    assert n <= q * limit;
    if passes >= q {
      assert passes * limit >= q * limit;
    }
  }
}
