/**
 rewriteRefs on the decoded documents themselves: nested Go maps, updated in place and
 possibly shared.  What it does to the objects is what OpenApi.Rewritten does to the
 trees they stand for.

 A heap at some moment is a value, the fields of every map; a visit changes at most one field
 of one map, and visiting a map twice is visiting it once.  So the whole call is told by the
 set of maps it comes by (Visited), and it agrees with the tree unless a map is reached both
 by a visit and from below a "$ref" key, where rewriteRefs does not go (Hidden).
 */
module OpenApiHeap {
  import opened OpenApi

  /** A decoded value: a scalar, a map object, or a slice, which rewriteRefs never assigns to. */
  datatype Cell = Scalar(json: Json) | Ref(node: Node) | Items(cells: seq<Cell>)

  /** A map[string]interface{}; `height` bounds the depth of what hangs below it. */
  class Node {
    var fields: map<string, Cell>
    ghost const height: nat

    constructor (ghost height: nat)
      ensures fields == map[] && this.height == height
    {
      fields := map[];
      this.height := height;
    }
  }

  // ----- the heap as a value -----

  /** What each map object holds at some moment. */
  type Heap = map<Node, map<string, Cell>>

  ghost function Snapshot(all: set<Node>): Heap
    reads all
  {
    map n | n in all :: n.fields
  }

  /** Every map of c is known and lies below height h. */
  ghost predicate Below(heap: Heap, c: Cell, h: nat) {
    match c
    case Scalar(j) => !j.Object? && !j.List?
    case Ref(n) => n in heap && n.height < h
    case Items(cs) => forall i :: 0 <= i < |cs| ==> Below(heap, cs[i], h)
  }

  /** Going down from a known map leads to known maps, and ends. */
  ghost predicate Closed(heap: Heap) {
    forall n, k :: n in heap && k in heap[n] ==> Below(heap, heap[n][k], n.height)
  }

  /** The tree a value stands for. */
  ghost function View(heap: Heap, c: Cell, h: nat): Json
    requires Closed(heap) && Below(heap, c, h)
    decreases h, c
  {
    match c
    case Scalar(j) => j
    case Ref(n) => Object(map k | k in heap[n] :: View(heap, heap[n][k], n.height))
    case Items(cs) => List(seq(|cs|, i requires 0 <= i < |cs| => View(heap, cs[i], h)))
  }

  /** What one visit does to a map of its own: a string under "$ref" is rewritten. */
  function Direct(f: map<string, Cell>): map<string, Cell> {
    if REF in f && f[REF].Scalar? then f[REF := Scalar(RefValue(f[REF].json))] else f
  }

  /** The maps rewriteRefs comes by: c's and everything below, except below a "$ref" key. */
  ghost function Visited(heap: Heap, c: Cell, h: nat): (r: set<Node>)
    requires Closed(heap) && Below(heap, c, h)
    ensures r <= heap.Keys && forall n :: n in r ==> n.height < h
    decreases h, 0, c
  {
    match c
    case Scalar(_) => {}
    case Ref(n) => {n} + BelowMap(heap, n, heap[n].Keys)
    case Items(cs) => BelowItems(heap, cs, h)
  }

  ghost function BelowMap(heap: Heap, n: Node, ks: set<string>): (r: set<Node>)
    requires Closed(heap) && n in heap && ks <= heap[n].Keys
    ensures r <= heap.Keys && forall m :: m in r ==> m.height < n.height
    decreases n.height, 1
  {
    set k, m | k in ks && k != REF && m in Visited(heap, heap[n][k], n.height) :: m
  }

  ghost function BelowItems(heap: Heap, cs: seq<Cell>, h: nat): (r: set<Node>)
    requires Closed(heap) && forall i :: 0 <= i < |cs| ==> Below(heap, cs[i], h)
    ensures r <= heap.Keys && forall m :: m in r ==> m.height < h
    decreases h, 0, cs
  {
    set i, m | 0 <= i < |cs| && m in Visited(heap, cs[i], h) :: m
  }

  /** The heap after the maps of d were visited. */
  ghost function After(heap: Heap, d: set<Node>): Heap {
    map n | n in heap :: if n in d then Direct(heap[n]) else heap[n]
  }

  // ----- visiting twice, and in pieces -----

  lemma DirectTwice(f: map<string, Cell>)
    ensures Direct(Direct(f)) == Direct(f)
  {
    if REF in f && f[REF].Scalar? && f[REF].json.Str? {
      NewRefIsNotOld(f[REF].json.text);
    }
  }

  /** Visits add up, in whatever order and however often a shared map is come by. */
  lemma AfterBoth(heap: Heap, d: set<Node>, e: set<Node>)
    ensures After(After(heap, d), e) == After(heap, d + e)
  {
    forall n | n in heap ensures After(After(heap, d), e)[n] == After(heap, d + e)[n] {
      DirectTwice(heap[n]);
    }
  }

  /** Visiting changes neither which maps there are nor how they hang together. */
  lemma StillClosed(heap: Heap, d: set<Node>)
    requires Closed(heap)
    ensures Closed(After(heap, d))
  {
    var now := After(heap, d);
    forall n, k | n in now && k in now[n] ensures Below(now, now[n][k], n.height) {
      assert Below(heap, heap[n][k], n.height);
      StillBelow(heap, d, heap[n][k], n.height);
      assert now[n][k] == heap[n][k] || now[n][k].Scalar?;
    }
  }

  lemma {:induction false} StillBelow(heap: Heap, d: set<Node>, c: Cell, h: nat)
    requires Below(heap, c, h)
    ensures Below(After(heap, d), c, h)
  {
    match c
    case Items(cs) =>
      forall i | 0 <= i < |cs| ensures Below(After(heap, d), cs[i], h) {
        StillBelow(heap, d, cs[i], h);
      }
    case _ =>
  }

  lemma {:induction false} SameVisited(heap: Heap, d: set<Node>, c: Cell, h: nat)
    requires Closed(heap) && Closed(After(heap, d)) && Below(heap, c, h) && Below(After(heap, d), c, h)
    ensures Visited(After(heap, d), c, h) == Visited(heap, c, h)
    decreases h, c
  {
    var now := After(heap, d);
    match c
    case Scalar(_) =>
    case Ref(n) =>
      forall k | k in heap[n] && k != REF
        ensures now[n][k] == heap[n][k] && Visited(now, heap[n][k], n.height) == Visited(heap, heap[n][k], n.height)
      {
        assert Below(heap, heap[n][k], n.height) && Below(now, now[n][k], n.height);
        SameVisited(heap, d, heap[n][k], n.height);
      }
      assert now[n].Keys == heap[n].Keys;
      assert BelowMap(now, n, now[n].Keys) == BelowMap(heap, n, heap[n].Keys);
    case Items(cs) =>
      forall i | 0 <= i < |cs| ensures Visited(now, cs[i], h) == Visited(heap, cs[i], h) {
        SameVisited(heap, d, cs[i], h);
      }
  }

  lemma OneMoreItem(heap: Heap, cs: seq<Cell>, i: nat, h: nat)
    requires Closed(heap) && (forall j :: 0 <= j < |cs| ==> Below(heap, cs[j], h)) && i < |cs|
    ensures BelowItems(heap, cs[..i + 1], h) == BelowItems(heap, cs[..i], h) + Visited(heap, cs[i], h)
  {
    var longer, shorter := cs[..i + 1], cs[..i];
    assert longer[i] == cs[i] && forall j :: 0 <= j < i ==> longer[j] == shorter[j];
  }

  /** The maps visited from n when the keys in `left` are still to come; n itself counts once its "$ref" key is done. */
  ghost function Done(heap: Heap, n: Node, left: set<string>): set<Node>
    requires Closed(heap) && n in heap
  {
    BelowMap(heap, n, heap[n].Keys - left) + if REF in heap[n] && REF !in left then {n} else {}
  }

  lemma OneMoreKey(heap: Heap, n: Node, left: set<string>, k: string)
    requires Closed(heap) && n in heap && left <= heap[n].Keys && k in left
    ensures Done(heap, n, left - {k}) == Done(heap, n, left) + if k == REF then {n} else Visited(heap, heap[n][k], n.height)
  {
    var keys := heap[n].Keys;
    assert keys - (left - {k}) == (keys - left) + {k};
  }

  lemma NothingDone(heap: Heap, n: Node)
    requires Closed(heap) && n in heap
    ensures After(heap, Done(heap, n, heap[n].Keys)) == heap
  {
    assert Done(heap, n, heap[n].Keys) == {};
  }

  lemma AllDone(heap: Heap, n: Node)
    requires Closed(heap) && n in heap
    ensures After(heap, Done(heap, n, {})) == After(heap, {n} + BelowMap(heap, n, heap[n].Keys))
  {
    assert heap[n].Keys - {} == heap[n].Keys;
  }

  // ----- the method -----

  /** rewriteRefs(v): exactly the maps it comes by are visited. */
  method RewriteRefs(ghost all: set<Node>, v: Cell, ghost h: nat)
    requires Closed(Snapshot(all)) && Below(Snapshot(all), v, h)
    modifies all
    ensures Snapshot(all) == After(old(Snapshot(all)), Visited(old(Snapshot(all)), v, h))
    decreases h, 0, v
  {
    match v
    case Ref(x) =>
      RewriteMap(all, x);
    case Items(cs) =>
      RewriteItems(all, cs, h);
    case Scalar(_) =>
      assert Snapshot(all) == After(Snapshot(all), {});
  }

  method RewriteItems(ghost all: set<Node>, cs: seq<Cell>, ghost h: nat)
    requires Closed(Snapshot(all)) && forall i :: 0 <= i < |cs| ==> Below(Snapshot(all), cs[i], h)
    modifies all
    ensures Snapshot(all) == After(old(Snapshot(all)), BelowItems(old(Snapshot(all)), cs, h))
    decreases h, 0, cs
  {
    ghost var was := Snapshot(all);
    assert Snapshot(all) == After(was, BelowItems(was, cs[..0], h));
    var i := 0;
    while i < |cs|
      invariant 0 <= i <= |cs|
      invariant Snapshot(all) == After(was, BelowItems(was, cs[..i], h))
    {
      ghost var done := BelowItems(was, cs[..i], h);
      StillClosed(was, done);
      StillBelow(was, done, cs[i], h);
      SameVisited(was, done, cs[i], h);
      RewriteRefs(all, cs[i], h);
      AfterBoth(was, done, Visited(was, cs[i], h));
      OneMoreItem(was, cs, i, h);
      i := i + 1;
    }
    assert cs[..i] == cs;
  }

  /** The loop over a map's keys, in whatever order the map gives them. */
  method RewriteMap(ghost all: set<Node>, x: Node)
    requires Closed(Snapshot(all)) && x in all
    modifies all
    ensures Snapshot(all) == After(old(Snapshot(all)), {x} + BelowMap(old(Snapshot(all)), x, old(x.fields).Keys))
    decreases x.height, 1, 1
  {
    ghost var was := Snapshot(all);
    var left := x.fields.Keys;
    NothingDone(was, x);
    while left != {}
      invariant left <= was[x].Keys
      invariant Snapshot(all) == After(was, Done(was, x, left))
      decreases |left|
    {
      var k :| k in left;
      OneMoreKey(was, x, left, k);
      assert x.fields == After(was, Done(was, x, left))[x];
      if k == REF {
        DoRef(all, x, was, Done(was, x, left));
      } else {
        DoKey(all, x, k, was, Done(was, x, left));
      }
      left := left - {k};
    }
    AllDone(was, x);
  }

  /** Any other key: go down. */
  method DoKey(ghost all: set<Node>, x: Node, k: string, ghost was: Heap, ghost done: set<Node>)
    requires x in all && x in was && k in was[x] && k != REF
    requires Closed(was) && Snapshot(all) == After(was, done)
    modifies all
    ensures Snapshot(all) == After(was, done + Visited(was, was[x][k], x.height))
    decreases x.height, 1, 0
  {
    assert x.fields == After(was, done)[x];
    var val := x.fields[k];
    assert val == was[x][k] && Below(was, val, x.height);
    StillClosed(was, done);
    StillBelow(was, done, val, x.height);
    SameVisited(was, done, val, x.height);
    RewriteRefs(all, val, x.height);
    AfterBoth(was, done, Visited(was, val, x.height));
  }

  /** x["$ref"] when it is a string of the old form. */
  method DoRef(ghost all: set<Node>, x: Node, ghost was: Heap, ghost done: set<Node>)
    requires x in all && REF in x.fields && Snapshot(all) == After(was, done)
    modifies x
    ensures Snapshot(all) == After(was, done + {x})
  {
    var val := x.fields[REF];
    if val.Scalar? && val.json.Str? && OLD <= val.json.text {
      x.fields := x.fields[REF := Scalar(Str(NEW + val.json.text[|OLD|..]))];
    }
    assert x.fields == Direct(old(x.fields));
    assert Snapshot(all) == After(old(Snapshot(all)), {x});
    AfterBoth(was, done, {x});
  }

  // ----- what the objects stand for afterwards -----

  /** Every map below c. */
  ghost function Reach(heap: Heap, c: Cell, h: nat): (r: set<Node>)
    requires Closed(heap) && Below(heap, c, h)
    ensures r <= heap.Keys
    decreases h, c
  {
    match c
    case Scalar(_) => {}
    case Ref(n) => {n} + set k, m | k in heap[n] && m in Reach(heap, heap[n][k], n.height) :: m
    case Items(cs) => set i, m | 0 <= i < |cs| && m in Reach(heap, cs[i], h) :: m
  }

  /** The maps rewriteRefs does not come by from c: those below a "$ref" key that holds no scalar. */
  ghost function Hidden(heap: Heap, c: Cell, h: nat): set<Node>
    requires Closed(heap) && Below(heap, c, h)
    decreases h, c
  {
    match c
    case Scalar(_) => {}
    case Ref(n) =>
      (set k, m | k in heap[n] && k != REF && m in Hidden(heap, heap[n][k], n.height) :: m)
      + if REF in heap[n] then Reach(heap, heap[n][REF], n.height) else {}
    case Items(cs) => set i, m | 0 <= i < |cs| && m in Hidden(heap, cs[i], h) :: m
  }

  /** A value is, stands for and reaches the same in both heaps. */
  ghost predicate Same(heap: Heap, now: Heap, c: Cell, h: nat)
    requires Closed(heap) && Closed(now) && Below(heap, c, h)
  {
    && Below(now, c, h)
    && View(now, c, h) == View(heap, c, h)
    && Reach(now, c, h) == Reach(heap, c, h)
    && (Unshared(now, c, h) <==> Unshared(heap, c, h))
  }

  lemma SameMap(heap: Heap, now: Heap, n: Node, h: nat)
    requires Closed(heap) && Closed(now) && n in heap && n.height < h && n in now && now[n] == heap[n]
    requires forall k :: k in heap[n] ==> Below(heap, heap[n][k], n.height) && Same(heap, now, heap[n][k], n.height)
    ensures Same(heap, now, Ref(n), h)
  {
    assert View(now, Ref(n), h).fields == View(heap, Ref(n), h).fields;
  }

  lemma SameItems(heap: Heap, now: Heap, cs: seq<Cell>, h: nat)
    requires Closed(heap) && Closed(now)
    requires forall i :: 0 <= i < |cs| ==> Below(heap, cs[i], h) && Same(heap, now, cs[i], h)
    ensures Same(heap, now, Items(cs), h)
  {
    assert View(now, Items(cs), h).items == View(heap, Items(cs), h).items;
  }

  /** A value does not change when none of the maps below it does. */
  lemma {:induction false} Untouched(heap: Heap, now: Heap, c: Cell, h: nat)
    requires Closed(heap) && Closed(now) && Below(heap, c, h)
    requires forall n :: n in Reach(heap, c, h) ==> n in now && now[n] == heap[n]
    ensures Same(heap, now, c, h)
    decreases h, c
  {
    match c
    case Scalar(_) =>
    case Ref(n) =>
      assert n in Reach(heap, c, h) && now[n] == heap[n];
      forall k | k in heap[n] ensures Below(heap, heap[n][k], n.height) && Same(heap, now, heap[n][k], n.height) {
        assert Below(heap, heap[n][k], n.height);
        assert forall m :: m in Reach(heap, heap[n][k], n.height) ==> m in Reach(heap, c, h);
        Untouched(heap, now, heap[n][k], n.height);
      }
      SameMap(heap, now, n, h);
    case Items(cs) =>
      forall i | 0 <= i < |cs| ensures Same(heap, now, cs[i], h) {
        assert forall m :: m in Reach(heap, cs[i], h) ==> m in Reach(heap, c, h);
        Untouched(heap, now, cs[i], h);
      }
      SameItems(heap, now, cs, h);
  }

  lemma {:induction false} VisitedIsRewritten(heap: Heap, d: set<Node>, c: Cell, h: nat)
    requires Closed(heap) && Closed(After(heap, d)) && Below(heap, c, h) && Below(After(heap, d), c, h)
    requires Visited(heap, c, h) <= d && Hidden(heap, c, h) !! d
    ensures View(After(heap, d), c, h) == Rewritten(View(heap, c, h))
    decreases h, 0, c
  {
    match c
    case Scalar(_) =>
    case Ref(n) =>
      MapIsRewritten(heap, d, n, h);
    case Items(cs) =>
      var now := After(heap, d);
      forall i | 0 <= i < |cs| ensures View(now, cs[i], h) == Rewritten(View(heap, cs[i], h)) {
        assert forall m :: m in Visited(heap, cs[i], h) ==> m in BelowItems(heap, cs, h);
        assert forall m :: m in Hidden(heap, cs[i], h) ==> m in Hidden(heap, c, h);
        VisitedIsRewritten(heap, d, cs[i], h);
      }
      assert View(now, c, h).items == Rewritten(View(heap, c, h)).items;
  }

  lemma PartsOfAKey(heap: Heap, n: Node, k: string, h: nat)
    requires Closed(heap) && n in heap && n.height < h && k in heap[n] && k != REF
    ensures Below(heap, heap[n][k], n.height)
    ensures Visited(heap, heap[n][k], n.height) <= BelowMap(heap, n, heap[n].Keys)
    ensures Hidden(heap, heap[n][k], n.height) <= Hidden(heap, Ref(n), h)
  {
  }

  lemma {:induction false} MapIsRewritten(heap: Heap, d: set<Node>, n: Node, h: nat)
    requires Closed(heap) && Closed(After(heap, d)) && n in heap && n.height < h
    requires n in d && BelowMap(heap, n, heap[n].Keys) <= d && Hidden(heap, Ref(n), h) !! d
    ensures View(After(heap, d), Ref(n), h) == Rewritten(View(heap, Ref(n), h))
    decreases n.height, 1
  {
    var now := After(heap, d);
    assert now[n] == Direct(heap[n]) && now[n].Keys == heap[n].Keys;
    forall k | k in heap[n] && k != REF
      ensures View(now, now[n][k], n.height) == Rewritten(View(heap, heap[n][k], n.height))
    {
      PartsOfAKey(heap, n, k, h);
      StillBelow(heap, d, heap[n][k], n.height);
      VisitedIsRewritten(heap, d, heap[n][k], n.height);
    }
    if REF in heap[n] {
      RefIsRewritten(heap, d, n);
    }
    assert View(now, Ref(n), h).fields == RewrittenFields(View(heap, Ref(n), h).fields);
  }

  lemma RefIsRewritten(heap: Heap, d: set<Node>, n: Node)
    requires Closed(heap) && Closed(After(heap, d)) && n in heap && n in d && REF in heap[n]
    requires Reach(heap, heap[n][REF], n.height) !! d
    ensures View(After(heap, d), After(heap, d)[n][REF], n.height) == RefValue(View(heap, heap[n][REF], n.height))
  {
    assert Below(heap, heap[n][REF], n.height);
    if !heap[n][REF].Scalar? {
      StillBelow(heap, d, heap[n][REF], n.height);
      Untouched(heap, After(heap, d), heap[n][REF], n.height);
    }
  }

  /** No map is held in two places: what a JSON decoder builds. */
  ghost predicate Unshared(heap: Heap, c: Cell, h: nat)
    requires Closed(heap) && Below(heap, c, h)
    decreases h, c
  {
    match c
    case Scalar(_) => true
    case Ref(n) =>
      && (forall k :: k in heap[n] ==> Unshared(heap, heap[n][k], n.height))
      && (forall k, l :: k in heap[n] && l in heap[n] && k != l ==>
            Reach(heap, heap[n][k], n.height) !! Reach(heap, heap[n][l], n.height))
    case Items(cs) =>
      && (forall i :: 0 <= i < |cs| ==> Unshared(heap, cs[i], h))
      && (forall i, j :: 0 <= i < j < |cs| ==> Reach(heap, cs[i], h) !! Reach(heap, cs[j], h))
  }

  lemma {:induction false} WithinReach(heap: Heap, c: Cell, h: nat)
    requires Closed(heap) && Below(heap, c, h)
    ensures Visited(heap, c, h) <= Reach(heap, c, h) && Hidden(heap, c, h) <= Reach(heap, c, h)
    ensures forall m :: m in Reach(heap, c, h) ==> m.height < h
    decreases h, c
  {
    match c
    case Scalar(_) =>
    case Ref(n) =>
      forall k | k in heap[n]
        ensures Below(heap, heap[n][k], n.height)
        ensures Visited(heap, heap[n][k], n.height) + Hidden(heap, heap[n][k], n.height) <= Reach(heap, heap[n][k], n.height)
        ensures forall m :: m in Reach(heap, heap[n][k], n.height) ==> m.height < n.height
      {
        assert Below(heap, heap[n][k], n.height);
        WithinReach(heap, heap[n][k], n.height);
      }
    case Items(cs) =>
      forall i | 0 <= i < |cs|
        ensures Visited(heap, cs[i], h) + Hidden(heap, cs[i], h) <= Reach(heap, cs[i], h)
        ensures forall m :: m in Reach(heap, cs[i], h) ==> m.height < h
      {
        WithinReach(heap, cs[i], h);
      }
  }

  /** In a decoded document no map is both visited and hidden. */
  lemma {:induction false} UnsharedQualifies(heap: Heap, c: Cell, h: nat)
    requires Closed(heap) && Below(heap, c, h) && Unshared(heap, c, h)
    ensures Visited(heap, c, h) !! Hidden(heap, c, h)
    decreases h, c
  {
    match c
    case Scalar(_) =>
    case Ref(n) =>
      forall k | k in heap[n]
        ensures Visited(heap, heap[n][k], n.height) !! Hidden(heap, heap[n][k], n.height)
        ensures Visited(heap, heap[n][k], n.height) + Hidden(heap, heap[n][k], n.height) <= Reach(heap, heap[n][k], n.height)
        ensures forall m :: m in Reach(heap, heap[n][k], n.height) ==> m.height < n.height
      {
        assert Below(heap, heap[n][k], n.height);
        WithinReach(heap, heap[n][k], n.height);
        UnsharedQualifies(heap, heap[n][k], n.height);
      }
    case Items(cs) =>
      forall i | 0 <= i < |cs|
        ensures Visited(heap, cs[i], h) !! Hidden(heap, cs[i], h)
        ensures Visited(heap, cs[i], h) + Hidden(heap, cs[i], h) <= Reach(heap, cs[i], h)
      {
        WithinReach(heap, cs[i], h);
        UnsharedQualifies(heap, cs[i], h);
      }
  }

  /**
   Rewriting in place: afterwards the document stands for the rewritten tree.  Maps may be
   shared freely, as long as none is both visited and hidden below a "$ref" key.
   */
  method RewriteDocument(ghost all: set<Node>, v: Cell, ghost h: nat)
    requires Closed(Snapshot(all)) && Below(Snapshot(all), v, h)
    requires Visited(Snapshot(all), v, h) !! Hidden(Snapshot(all), v, h)
    modifies all
    ensures Closed(Snapshot(all)) && Below(Snapshot(all), v, h)
    ensures View(Snapshot(all), v, h) == Rewritten(View(old(Snapshot(all)), v, h))
    ensures forall n :: n in all && n !in Visited(old(Snapshot(all)), v, h) ==> n.fields == old(n.fields)
  {
    ghost var was := Snapshot(all);
    ghost var d := Visited(was, v, h);
    StillClosed(was, d);
    StillBelow(was, d, v, h);
    VisitedIsRewritten(was, d, v, h);
    RewriteRefs(all, v, h);
    assert forall n :: n in all ==> n.fields == Snapshot(all)[n] && old(n.fields) == was[n];
  }
}
