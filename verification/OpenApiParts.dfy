/**
 Map objects in parts that share nothing.  A part is the contents of one map under
 construction; entries are moved between parts by reference, items of shared paths are
 changed in place, and what every part stands for follows.

 Four moves are all the merging needs: an entry passes from one part to another (Move) or is
 dropped (Drop), what is missing in one part is poured into it from another (Pour), and the
 paths of one part are joined into another's, where the methods of a shared path go into the
 map that is there (Join).  Exchange is what they have in common: two parts are replaced by
 two that reach no other maps, and all the rest stays as it is.
 */
module OpenApiParts {
  import opened OpenApi
  import opened OpenApiHeap

  type Cells = map<string, Cell>

  // ----- maps of values -----

  /** Every entry is known and lies below height h. */
  ghost predicate AllBelow(heap: Heap, f: Cells, h: nat) {
    forall k :: k in f ==> Below(heap, f[k], h)
  }

  /** What the entries stand for. */
  ghost function ViewAll(heap: Heap, f: Cells, h: nat): Fields
    requires Closed(heap) && AllBelow(heap, f, h)
  {
    map k | k in f :: View(heap, f[k], h)
  }

  /** Every map below an entry. */
  ghost function ReachAll(heap: Heap, f: Cells, h: nat): (r: set<Node>)
    requires Closed(heap) && AllBelow(heap, f, h)
    ensures r <= heap.Keys
  {
    set k, m | k in f && m in Reach(heap, f[k], h) :: m
  }

  /** No map is held in two places below the entries. */
  ghost predicate UnsharedAll(heap: Heap, f: Cells, h: nat)
    requires Closed(heap) && AllBelow(heap, f, h)
  {
    && (forall k :: k in f ==> Unshared(heap, f[k], h))
    && (forall k, l :: k in f && l in f && k != l ==> Reach(heap, f[k], h) !! Reach(heap, f[l], h))
  }

  lemma PartOfAll(heap: Heap, f: Cells, k: string, h: nat)
    requires Closed(heap) && AllBelow(heap, f, h) && k in f
    ensures Reach(heap, f[k], h) <= ReachAll(heap, f, h)
  {
  }

  /** What a map object stands for is what its entries stand for. */
  lemma MapParts(heap: Heap, n: Node, h: nat)
    requires Closed(heap) && n in heap && n.height < h
    ensures AllBelow(heap, heap[n], n.height)
    ensures View(heap, Ref(n), h) == Object(ViewAll(heap, heap[n], n.height))
    ensures Reach(heap, Ref(n), h) == {n} + ReachAll(heap, heap[n], n.height)
    ensures Unshared(heap, Ref(n), h) <==> UnsharedAll(heap, heap[n], n.height)
  {
    assert forall k :: k in heap[n] ==> Below(heap, heap[n][k], n.height);
    assert View(heap, Ref(n), h).fields == ViewAll(heap, heap[n], n.height);
  }

  lemma AllUntouched(heap: Heap, now: Heap, f: Cells, h: nat)
    requires Closed(heap) && Closed(now) && AllBelow(heap, f, h)
    requires forall n :: n in ReachAll(heap, f, h) ==> n in now && now[n] == heap[n]
    ensures AllBelow(now, f, h)
    ensures ViewAll(now, f, h) == ViewAll(heap, f, h)
    ensures ReachAll(now, f, h) == ReachAll(heap, f, h)
    ensures UnsharedAll(now, f, h) <==> UnsharedAll(heap, f, h)
  {
    hide Closed, Below, Unshared, View, Reach;
    forall k | k in f ensures Below(heap, f[k], h) && Same(heap, now, f[k], h) {
      PartOfAll(heap, f, k, h);
      Untouched(heap, now, f[k], h);
    }
  }

  /** The bound on a value's depth is only a bound. */
  lemma {:induction false} AnyBound(heap: Heap, c: Cell, h: nat, g: nat)
    requires Closed(heap) && Below(heap, c, h) && h <= g
    ensures Below(heap, c, g)
    ensures View(heap, c, g) == View(heap, c, h)
    ensures Reach(heap, c, g) == Reach(heap, c, h)
    ensures Unshared(heap, c, g) <==> Unshared(heap, c, h)
    decreases c
  {
    match c
    case Scalar(_) =>
    case Ref(n) =>
    case Items(cs) =>
      forall i | 0 <= i < |cs|
        ensures Below(heap, cs[i], g)
        ensures View(heap, cs[i], g) == View(heap, cs[i], h)
        ensures Reach(heap, cs[i], g) == Reach(heap, cs[i], h)
        ensures Unshared(heap, cs[i], g) <==> Unshared(heap, cs[i], h)
      {
        AnyBound(heap, cs[i], h, g);
      }
      assert View(heap, c, g).items == View(heap, c, h).items;
  }

  lemma HigherBound(heap: Heap, f: Cells, g: nat, h: nat)
    requires Closed(heap) && AllBelow(heap, f, g) && g <= h
    ensures AllBelow(heap, f, h)
    ensures ViewAll(heap, f, h) == ViewAll(heap, f, g) && ReachAll(heap, f, h) == ReachAll(heap, f, g)
    ensures UnsharedAll(heap, f, h) <==> UnsharedAll(heap, f, g)
  {
    forall k | k in f
      ensures Below(heap, f[k], h)
      ensures View(heap, f[k], h) == View(heap, f[k], g) && Reach(heap, f[k], h) == Reach(heap, f[k], g)
      ensures Unshared(heap, f[k], h) <==> Unshared(heap, f[k], g)
    {
      AnyBound(heap, f[k], g, h);
    }
  }

  lemma {:induction false} SameMaps(heap: Heap, now: Heap, c: Cell, h: nat)
    requires Below(heap, c, h) && heap.Keys <= now.Keys
    ensures Below(now, c, h)
  {
    match c
    case Items(cs) =>
      forall i | 0 <= i < |cs| ensures Below(now, cs[i], h) {
        SameMaps(heap, now, cs[i], h);
      }
    case _ =>
  }

  // ----- values and entries as they stand -----

  /** A value as it stands in a heap. */
  ghost predicate Known(heap: Heap, c: Cell, h: nat, view: Json, reach: set<Node>) {
    Closed(heap) && Below(heap, c, h) && Unshared(heap, c, h) && View(heap, c, h) == view && Reach(heap, c, h) == reach
  }

  ghost predicate KnownAll(heap: Heap, f: Cells, h: nat, views: Fields, reach: set<Node>) {
    Closed(heap) && AllBelow(heap, f, h) && UnsharedAll(heap, f, h) && ViewAll(heap, f, h) == views && ReachAll(heap, f, h) == reach
  }

  /** A fresh map leaves everything else as it is. */
  lemma Carry(heap: Heap, now: Heap, n: Node, c: Cell, h: nat, view: Json, reach: set<Node>)
    requires Known(heap, c, h, view, reach) && n !in heap && n in now && Closed(now) && now == heap[n := now[n]]
    ensures Known(now, c, h, view, reach) && n !in reach
  {
    Untouched(heap, now, c, h);
  }

  lemma CarryAll(heap: Heap, now: Heap, n: Node, f: Cells, h: nat, views: Fields, reach: set<Node>)
    requires KnownAll(heap, f, h, views, reach) && n !in heap && n in now && Closed(now) && now == heap[n := now[n]]
    ensures KnownAll(now, f, h, views, reach) && n !in reach
  {
    AllUntouched(heap, now, f, h);
  }

  lemma OneEntry(heap: Heap, k: string, c: Cell, h: nat)
    requires Closed(heap) && Below(heap, c, h) && Unshared(heap, c, h)
    ensures AllBelow(heap, map[k := c], h) && UnsharedAll(heap, map[k := c], h)
    ensures ReachAll(heap, map[k := c], h) == Reach(heap, c, h) && ViewAll(heap, map[k := c], h) == map[k := View(heap, c, h)]
  {
    var f: Cells := map[k := c];
    assert k in f && f[k] == c && forall l :: l in f ==> l == k;
  }

  /** An entry that shares nothing with the others joins them. */
  lemma MoveIn(heap: Heap, f: Cells, k: string, c: Cell, h: nat)
    requires Closed(heap) && AllBelow(heap, f, h) && k !in f && Below(heap, c, h)
    requires UnsharedAll(heap, f, h) && Unshared(heap, c, h) && Reach(heap, c, h) !! ReachAll(heap, f, h)
    ensures AllBelow(heap, f[k := c], h) && UnsharedAll(heap, f[k := c], h)
    ensures ReachAll(heap, f[k := c], h) == ReachAll(heap, f, h) + Reach(heap, c, h)
    ensures ViewAll(heap, f[k := c], h) == ViewAll(heap, f, h)[k := View(heap, c, h)]
  {
    hide Closed, Below, Unshared, View, Reach;
    var g := f[k := c];
    assert forall l :: l in g ==> Below(heap, g[l], h) && g[l] == if l == k then c else f[l];
    forall x ensures x in ReachAll(heap, g, h) <==> x in ReachAll(heap, f, h) || x in Reach(heap, c, h) {
      if x in Reach(heap, c, h) {
        assert k in g && x in Reach(heap, g[k], h);
      }
      if l :| l in f && x in Reach(heap, f[l], h) {
        assert l in g && x in Reach(heap, g[l], h);
      }
    }
    StaysUnshared(heap, f, k, c, h);
  }

  lemma StaysUnshared(heap: Heap, f: Cells, k: string, c: Cell, h: nat)
    requires Closed(heap) && AllBelow(heap, f, h) && AllBelow(heap, f[k := c], h) && Below(heap, c, h)
    requires UnsharedAll(heap, f, h) && Unshared(heap, c, h) && Reach(heap, c, h) !! ReachAll(heap, f, h)
    ensures UnsharedAll(heap, f[k := c], h)
  {
    hide Closed, Below, Unshared, View, Reach;
    var g := f[k := c];
    forall l, m | l in g && m in g && l != m ensures Reach(heap, g[l], h) !! Reach(heap, g[m], h) {
      if l == k {
        PartOfAll(heap, f, m, h);
      } else if m == k {
        PartOfAll(heap, f, l, h);
      }
    }
  }

  lemma MoveOut(heap: Heap, f: Cells, k: string, h: nat)
    requires Closed(heap) && AllBelow(heap, f, h) && UnsharedAll(heap, f, h) && k in f
    ensures AllBelow(heap, f - {k}, h) && UnsharedAll(heap, f - {k}, h)
    ensures ReachAll(heap, f - {k}, h) <= ReachAll(heap, f, h)
    ensures ReachAll(heap, f - {k}, h) !! Reach(heap, f[k], h)
    ensures ViewAll(heap, f - {k}, h) == ViewAll(heap, f, h) - {k}
  {
  }

  /** One more value that shares nothing with the others, under a key of its own. */
  lemma AddEntry(heap: Heap, f: Cells, h: nat, views: Fields, reach: set<Node>, k: string, c: Cell, x: Json, rx: set<Node>)
    requires KnownAll(heap, f, h, views, reach) && Known(heap, c, h, x, rx) && k !in f && reach !! rx
    ensures KnownAll(heap, f[k := c], h, views[k := x], reach + rx)
  {
    MoveIn(heap, f, k, c, h);
  }

  lemma TextsKnown(heap: Heap, f: Cells, h: nat)
    requires Closed(heap) && forall k :: k in f ==> f[k].Scalar? && f[k].json.Str?
    ensures KnownAll(heap, f, h, map k | k in f :: f[k].json, {})
  {
    assert forall k :: k in f ==> Below(heap, f[k], h);
    assert forall k :: k in f ==> Reach(heap, f[k], h) == {};
  }

  lemma OneItem(heap: Heap, c: Cell, h: nat, view: Json, reach: set<Node>)
    requires Known(heap, c, h, view, reach)
    ensures Known(heap, Items([c]), h, List([view]), reach)
  {
    var item := Items([c]);
    assert item.cells[0] == c;
    assert View(heap, item, h).items == [view];
    assert forall m :: m in Reach(heap, item, h) <==> m in Reach(heap, item.cells[0], h);
  }

  lemma StillAllClosed(heap: Heap, now: Heap, n: Node)
    requires Closed(heap) && n !in heap && n in now && now == heap[n := now[n]] && AllBelow(heap, now[n], n.height)
    ensures Closed(now)
  {
    forall m, k | m in now && k in now[m] ensures Below(now, now[m][k], m.height) {
      SameMaps(heap, now, now[m][k], m.height);
    }
  }

  /** A fresh map around entries that are held once. */
  lemma NewMap(heap: Heap, now: Heap, n: Node, h: nat)
    requires Closed(heap) && n !in heap && n in now && now == heap[n := now[n]] && n.height < h
    requires AllBelow(heap, now[n], n.height) && UnsharedAll(heap, now[n], n.height)
    ensures Known(now, Ref(n), h, Object(ViewAll(heap, now[n], n.height)), {n} + ReachAll(heap, now[n], n.height))
  {
    StillAllClosed(heap, now, n);
    AllUntouched(heap, now, now[n], n.height);
    MapParts(now, n, h);
  }

  // ----- a set of parts that share nothing -----

  /** Parts that share no map, with each other or within. */
  ghost predicate Apart(heap: Heap, parts: seq<Cells>, h: nat) {
    && Closed(heap)
    && (forall i :: 0 <= i < |parts| ==> AllBelow(heap, parts[i], h) && UnsharedAll(heap, parts[i], h))
    && (forall i, j :: 0 <= i < j < |parts| ==> ReachAll(heap, parts[i], h) !! ReachAll(heap, parts[j], h))
  }

  /** What the parts stand for. */
  ghost function Views(heap: Heap, parts: seq<Cells>, h: nat): (r: seq<Fields>)
    requires Apart(heap, parts, h)
    ensures |r| == |parts| && forall i :: 0 <= i < |parts| ==> r[i] == ViewAll(heap, parts[i], h)
  {
    seq(|parts|, i requires 0 <= i < |parts| => ViewAll(heap, parts[i], h))
  }

  lemma TwoApart(heap: Heap, parts: seq<Cells>, i: nat, j: nat, h: nat)
    requires Apart(heap, parts, h) && i < |parts| && j < |parts| && i != j
    ensures ReachAll(heap, parts[i], h) !! ReachAll(heap, parts[j], h)
  {
    if j < i {
      assert ReachAll(heap, parts[j], h) !! ReachAll(heap, parts[i], h);
    }
  }

  lemma PartEntries(heap: Heap, parts: seq<Cells>, j: nat, h: nat)
    requires Apart(heap, parts, h) && j < |parts|
    ensures Closed(heap) && Views(heap, parts, h)[j].Keys == parts[j].Keys
    ensures forall k :: k in parts[j] ==>
              Below(heap, parts[j][k], h) && Unshared(heap, parts[j][k], h) && Views(heap, parts, h)[j][k] == View(heap, parts[j][k], h)
  {
  }

  /**
   Two parts may be exchanged for two that are made of their maps and of fresh ones, while no
   other map changes; the remaining parts stay what they are.
   */
  lemma Exchange(heap: Heap, now: Heap, parts: seq<Cells>, i: nat, a: Cells, j: nat, b: Cells, h: nat)
    requires Apart(heap, parts, h) && i < |parts| && j < |parts| && i != j
    requires Closed(now) && heap.Keys <= now.Keys
    requires forall n :: n in heap && n !in ReachAll(heap, parts[i], h) + ReachAll(heap, parts[j], h) ==> now[n] == heap[n]
    requires AllBelow(now, a, h) && AllBelow(now, b, h) && UnsharedAll(now, a, h) && UnsharedAll(now, b, h)
    requires (ReachAll(now, a, h) + ReachAll(now, b, h)) * heap.Keys <= ReachAll(heap, parts[i], h) + ReachAll(heap, parts[j], h)
    requires ReachAll(now, a, h) !! ReachAll(now, b, h)
    ensures Apart(now, parts[i := a][j := b], h)
    ensures Views(now, parts[i := a][j := b], h) == Views(heap, parts, h)[i := ViewAll(now, a, h)][j := ViewAll(now, b, h)]
  {
    var after := parts[i := a][j := b];
    forall x | 0 <= x < |parts| && x != i && x != j
      ensures AllBelow(now, parts[x], h) && UnsharedAll(now, parts[x], h)
      ensures ReachAll(now, parts[x], h) == ReachAll(heap, parts[x], h)
      ensures ViewAll(now, parts[x], h) == ViewAll(heap, parts[x], h)
      ensures ReachAll(now, parts[x], h) !! ReachAll(now, a, h) && ReachAll(now, parts[x], h) !! ReachAll(now, b, h)
    {
      TwoApart(heap, parts, x, i, h);
      TwoApart(heap, parts, x, j, h);
      AllUntouched(heap, now, parts[x], h);
    }
    forall x, y | 0 <= x < y < |after| ensures ReachAll(now, after[x], h) !! ReachAll(now, after[y], h) {
      if x != i && x != j && y != i && y != j {
        TwoApart(heap, parts, x, y, h);
      }
    }
  }

  // ----- pouring one part into another -----

  lemma PouredReach(heap: Heap, a: Cells, b: Cells, k: string, h: nat)
    requires Closed(heap) && AllBelow(heap, a, h) && AllBelow(heap, b, h) && k in FirstWins(a, b)
    ensures Below(heap, FirstWins(a, b)[k], h)
    ensures Reach(heap, FirstWins(a, b)[k], h) <= if k in a then ReachAll(heap, a, h) else ReachAll(heap, b, h)
  {
    if k in a {
      PartOfAll(heap, a, k, h);
    } else {
      PartOfAll(heap, b, k, h);
    }
  }

  lemma Poured(heap: Heap, a: Cells, b: Cells, h: nat)
    requires Closed(heap) && AllBelow(heap, a, h) && AllBelow(heap, b, h)
    requires UnsharedAll(heap, a, h) && UnsharedAll(heap, b, h) && ReachAll(heap, a, h) !! ReachAll(heap, b, h)
    ensures AllBelow(heap, FirstWins(a, b), h)
    ensures ViewAll(heap, FirstWins(a, b), h) == FirstWins(ViewAll(heap, a, h), ViewAll(heap, b, h))
    ensures ReachAll(heap, FirstWins(a, b), h) <= ReachAll(heap, a, h) + ReachAll(heap, b, h)
    ensures UnsharedAll(heap, FirstWins(a, b), h)
  {
    var all := FirstWins(a, b);
    forall k | k in all ensures Below(heap, all[k], h) {
      PouredReach(heap, a, b, k, h);
    }
    PouredView(heap, a, b, h);
    PouredUnshared(heap, a, b, h);
  }

  lemma PouredView(heap: Heap, a: Cells, b: Cells, h: nat)
    requires Closed(heap) && AllBelow(heap, a, h) && AllBelow(heap, b, h) && AllBelow(heap, FirstWins(a, b), h)
    ensures ViewAll(heap, FirstWins(a, b), h) == FirstWins(ViewAll(heap, a, h), ViewAll(heap, b, h))
    ensures ReachAll(heap, FirstWins(a, b), h) <= ReachAll(heap, a, h) + ReachAll(heap, b, h)
  {
    hide Closed, Below, View, Reach;
    var all := FirstWins(a, b);
    forall m | m in ReachAll(heap, all, h) ensures m in ReachAll(heap, a, h) + ReachAll(heap, b, h) {
      var k :| k in all && m in Reach(heap, all[k], h);
      PouredReach(heap, a, b, k, h);
    }
  }

  lemma PouredUnshared(heap: Heap, a: Cells, b: Cells, h: nat)
    requires Closed(heap) && AllBelow(heap, a, h) && AllBelow(heap, b, h) && AllBelow(heap, FirstWins(a, b), h)
    requires UnsharedAll(heap, a, h) && UnsharedAll(heap, b, h) && ReachAll(heap, a, h) !! ReachAll(heap, b, h)
    ensures UnsharedAll(heap, FirstWins(a, b), h)
  {
    var all := FirstWins(a, b);
    forall k, l | k in all && l in all && k != l ensures Reach(heap, all[k], h) !! Reach(heap, all[l], h) {
      if k in a && l in a {
        assert all[k] == a[k] && all[l] == a[l];
      } else if k !in a && l !in a {
        assert all[k] == b[k] && all[l] == b[l];
      } else {
        PouredReach(heap, a, b, k, h);
        PouredReach(heap, a, b, l, h);
      }
    }
  }

  /** Entries of one part are added to another where that has none. */
  lemma Pour(heap: Heap, parts: seq<Cells>, i: nat, j: nat, h: nat)
    requires Apart(heap, parts, h) && i < |parts| && j < |parts| && i != j
    ensures var now := parts[i := FirstWins(parts[i], parts[j])][j := map[]];
            && Apart(heap, now, h)
            && Views(heap, now, h) ==
               Views(heap, parts, h)[i := FirstWins(Views(heap, parts, h)[i], Views(heap, parts, h)[j])][j := map[]]
  {
    TwoApart(heap, parts, i, j, h);
    Poured(heap, parts[i], parts[j], h);
    assert ReachAll(heap, map[], h) == {};
    Exchange(heap, heap, parts, i, FirstWins(parts[i], parts[j]), j, map[], h);
  }

  /** One entry moves from a part to another, as it is or wrapped into fresh maps. */
  lemma Move(heap: Heap, now: Heap, parts: seq<Cells>, i: nat, j: nat, k: string, c: Cell, h: nat)
    requires Apart(heap, parts, h) && i < |parts| && j < |parts| && i != j && k in parts[j] && k !in parts[i]
    requires Closed(now) && heap.Keys <= now.Keys && forall n :: n in heap ==> now[n] == heap[n]
    requires Below(now, c, h) && Unshared(now, c, h) && Reach(now, c, h) * heap.Keys <= Reach(heap, parts[j][k], h)
    ensures var after := parts[i := parts[i][k := c]][j := parts[j] - {k}];
            && Apart(now, after, h)
            && Views(now, after, h) ==
               Views(heap, parts, h)[i := Views(heap, parts, h)[i][k := View(now, c, h)]][j := Views(heap, parts, h)[j] - {k}]
  {
    var a, b := parts[i][k := c], parts[j] - {k};
    TwoApart(heap, parts, i, j, h);
    AllUntouched(heap, now, parts[i], h);
    AllUntouched(heap, now, parts[j], h);
    PartOfAll(heap, parts[j], k, h);
    Untouched(heap, now, parts[j][k], h);
    MoveIn(now, parts[i], k, c, h);
    MoveOut(now, parts[j], k, h);
    assert Reach(now, c, h) !! ReachAll(now, b, h);
    Exchange(heap, now, parts, i, a, j, b, h);
  }

  /** An entry is given up. */
  lemma Drop(heap: Heap, parts: seq<Cells>, j: nat, k: string, h: nat)
    requires Apart(heap, parts, h) && j < |parts| && k in parts[j]
    ensures Apart(heap, parts[j := parts[j] - {k}], h)
    ensures Views(heap, parts[j := parts[j] - {k}], h) == Views(heap, parts, h)[j := Views(heap, parts, h)[j] - {k}]
  {
    MoveOut(heap, parts[j], k, h);
    var after := parts[j := parts[j] - {k}];
    forall x, y | 0 <= x < y < |after| ensures ReachAll(heap, after[x], h) !! ReachAll(heap, after[y], h) {
      TwoApart(heap, parts, x, y, h);
    }
  }

  // ----- joining the methods of shared paths -----

  /** Both documents have the path, and both have an object there. */
  predicate Joinable(a: Cells, b: Cells, k: string) {
    k in a && k in b && a[k].Ref? && b[k].Ref?
  }

  /** The maps of a's shared paths have taken b's methods; no other map changed. */
  ghost predicate Joined(heap: Heap, now: Heap, a: Cells, b: Cells) {
    && now.Keys == heap.Keys
    && (forall k :: Joinable(a, b, k) && a[k].node in heap && b[k].node in heap ==>
          now[a[k].node] == FirstWins(heap[a[k].node], heap[b[k].node]))
    && (forall n :: n in heap && (forall k :: Joinable(a, b, k) ==> n != a[k].node) ==> now[n] == heap[n])
  }

  /** Path items lie at one level. */
  ghost predicate Level(f: Cells, level: nat) {
    forall k :: k in f && f[k].Ref? ==> f[k].node.height == level
  }

  lemma JoinedClosed(heap: Heap, now: Heap, a: Cells, b: Cells, h: nat, level: nat)
    requires Closed(heap) && AllBelow(heap, a, h) && AllBelow(heap, b, h) && Level(a, level) && Level(b, level)
    requires Joined(heap, now, a, b)
    ensures Closed(now)
  {
    forall n, k | n in now && k in now[n] ensures Below(now, now[n][k], n.height) {
      if l :| Joinable(a, b, l) && n == a[l].node {
        assert Below(heap, a[l], h) && Below(heap, b[l], h);
        var m := b[l].node;
        assert now[n] == FirstWins(heap[n], heap[m]);
        if k in heap[n] {
          SameMaps(heap, now, heap[n][k], n.height);
        } else {
          SameMaps(heap, now, heap[m][k], m.height);
        }
      } else {
        SameMaps(heap, now, heap[n][k], n.height);
      }
    }
  }

  /** What hangs below a path item is not joined itself. */
  lemma BelowItemsStays(heap: Heap, now: Heap, a: Cells, b: Cells, f: Cells, level: nat)
    requires Closed(heap) && Closed(now) && AllBelow(heap, f, level) && Level(a, level) && Joined(heap, now, a, b)
    ensures AllBelow(now, f, level)
    ensures ViewAll(now, f, level) == ViewAll(heap, f, level)
    ensures ReachAll(now, f, level) == ReachAll(heap, f, level)
    ensures UnsharedAll(now, f, level) <==> UnsharedAll(heap, f, level)
  {
    forall x | x in ReachAll(heap, f, level) ensures now[x] == heap[x] {
      var l :| l in f && x in Reach(heap, f[l], level);
      WithinReach(heap, f[l], level);
      assert forall y :: Joinable(a, b, y) ==> a[y].node.height == level;
    }
    AllUntouched(heap, now, f, level);
  }

  /** One shared path: the joined object, made of the maps of both. */
  lemma JoinedItem(heap: Heap, now: Heap, a: Cells, b: Cells, k: string, h: nat, level: nat)
    requires Closed(heap) && Closed(now) && AllBelow(heap, a, h) && AllBelow(heap, b, h) && Level(a, level) && Level(b, level)
    requires Joined(heap, now, a, b) && Joinable(a, b, k)
    requires Unshared(heap, a[k], h) && Unshared(heap, b[k], h) && Reach(heap, a[k], h) !! Reach(heap, b[k], h)
    ensures Below(now, a[k], h)
    ensures View(now, a[k], h) == JoinedPath(View(heap, a[k], h), View(heap, b[k], h))
    ensures Reach(now, a[k], h) <= Reach(heap, a[k], h) + Reach(heap, b[k], h)
    ensures Unshared(now, a[k], h)
  {
    assert Below(heap, a[k], h) && Below(heap, b[k], h);
    var n, m := a[k].node, b[k].node;
    var joined := FirstWins(heap[n], heap[m]);
    assert now[n] == joined;
    MapParts(heap, n, h);
    MapParts(heap, m, h);
    Poured(heap, heap[n], heap[m], level);
    BelowItemsStays(heap, now, a, b, joined, level);
    MapParts(now, n, h);
  }

  /** What a's k-th entry and b's k-th entry have become. */
  ghost predicate JoinedEntry(heap: Heap, now: Heap, a: Cells, b: Cells, k: string, h: nat)
    requires Closed(heap) && Closed(now) && AllBelow(heap, a, h) && AllBelow(heap, b, h)
    requires k in a || k in b
  {
    var c := FirstWins(a, b)[k];
    && Below(now, c, h)
    && View(now, c, h) == MergedPaths(ViewAll(heap, a, h), ViewAll(heap, b, h))[k]
    && Reach(now, c, h) <= (if k in a then Reach(heap, a[k], h) else {}) + (if k in b then Reach(heap, b[k], h) else {})
    && Unshared(now, c, h)
  }

  lemma EveryEntry(heap: Heap, now: Heap, a: Cells, b: Cells, k: string, h: nat, level: nat)
    requires Closed(heap) && Closed(now) && AllBelow(heap, a, h) && AllBelow(heap, b, h) && Level(a, level) && Level(b, level)
    requires UnsharedAll(heap, a, h) && UnsharedAll(heap, b, h) && ReachAll(heap, a, h) !! ReachAll(heap, b, h)
    requires Joined(heap, now, a, b) && (k in a || k in b)
    ensures JoinedEntry(heap, now, a, b, k, h)
  {
    if k in a {
      PartOfAll(heap, a, k, h);
    }
    if k in b {
      PartOfAll(heap, b, k, h);
    }
    if Joinable(a, b, k) {
      JoinedItem(heap, now, a, b, k, h, level);
    } else {
      var c := FirstWins(a, b)[k];
      forall l | Joinable(a, b, l) ensures a[l].node !in Reach(heap, c, h) {
        PartOfAll(heap, a, l, h);
        assert a[l].node in Reach(heap, a[l], h);
      }
      Untouched(heap, now, c, h);
    }
  }

  lemma JoinedAll(heap: Heap, now: Heap, a: Cells, b: Cells, h: nat, level: nat)
    requires Closed(heap) && Closed(now) && AllBelow(heap, a, h) && AllBelow(heap, b, h) && Level(a, level) && Level(b, level)
    requires UnsharedAll(heap, a, h) && UnsharedAll(heap, b, h) && ReachAll(heap, a, h) !! ReachAll(heap, b, h)
    requires Joined(heap, now, a, b)
    ensures AllBelow(now, FirstWins(a, b), h)
    ensures ViewAll(now, FirstWins(a, b), h) == MergedPaths(ViewAll(heap, a, h), ViewAll(heap, b, h))
    ensures ReachAll(now, FirstWins(a, b), h) <= ReachAll(heap, a, h) + ReachAll(heap, b, h)
    ensures UnsharedAll(now, FirstWins(a, b), h)
  {
    forall k | k in a || k in b ensures JoinedEntry(heap, now, a, b, k, h) {
      EveryEntry(heap, now, a, b, k, h, level);
    }
    JoinedReach(heap, now, a, b, h);
  }

  lemma JoinedReach(heap: Heap, now: Heap, a: Cells, b: Cells, h: nat)
    requires Closed(heap) && Closed(now) && AllBelow(heap, a, h) && AllBelow(heap, b, h)
    requires UnsharedAll(heap, a, h) && UnsharedAll(heap, b, h) && ReachAll(heap, a, h) !! ReachAll(heap, b, h)
    requires forall k :: k in a || k in b ==> JoinedEntry(heap, now, a, b, k, h)
    ensures AllBelow(now, FirstWins(a, b), h)
    ensures ReachAll(now, FirstWins(a, b), h) <= ReachAll(heap, a, h) + ReachAll(heap, b, h)
    ensures UnsharedAll(now, FirstWins(a, b), h)
  {
    var all := FirstWins(a, b);
    forall k | k in all ensures Below(now, all[k], h) && Unshared(now, all[k], h) {
      assert JoinedEntry(heap, now, a, b, k, h);
    }
    forall x | x in ReachAll(now, all, h) ensures x in ReachAll(heap, a, h) + ReachAll(heap, b, h) {
      var k :| k in all && x in Reach(now, all[k], h);
      assert JoinedEntry(heap, now, a, b, k, h);
    }
    forall k, l | k in all && l in all && k != l ensures Reach(now, all[k], h) !! Reach(now, all[l], h) {
      assert JoinedEntry(heap, now, a, b, k, h) && JoinedEntry(heap, now, a, b, l, h);
      KeysApart(heap, a, b, k, l, h);
    }
  }

  lemma KeysApart(heap: Heap, a: Cells, b: Cells, k: string, l: string, h: nat)
    requires Closed(heap) && AllBelow(heap, a, h) && AllBelow(heap, b, h) && k != l
    requires UnsharedAll(heap, a, h) && UnsharedAll(heap, b, h) && ReachAll(heap, a, h) !! ReachAll(heap, b, h)
    ensures (if k in a then Reach(heap, a[k], h) else {}) + (if k in b then Reach(heap, b[k], h) else {})
         !! (if l in a then Reach(heap, a[l], h) else {}) + (if l in b then Reach(heap, b[l], h) else {})
  {
    if k in a { PartOfAll(heap, a, k, h); }
    if l in a { PartOfAll(heap, a, l, h); }
    if k in b { PartOfAll(heap, b, k, h); }
    if l in b { PartOfAll(heap, b, l, h); }
  }

  /** Paths of one part are merged into another. */
  lemma Join(heap: Heap, now: Heap, parts: seq<Cells>, i: nat, j: nat, h: nat, level: nat)
    requires Apart(heap, parts, h) && i < |parts| && j < |parts| && i != j && Level(parts[i], level) && Level(parts[j], level)
    requires Joined(heap, now, parts[i], parts[j])
    ensures var after := parts[i := FirstWins(parts[i], parts[j])][j := map[]];
            && Apart(now, after, h) && Level(after[i], level)
            && Views(now, after, h) ==
               Views(heap, parts, h)[i := MergedPaths(Views(heap, parts, h)[i], Views(heap, parts, h)[j])][j := map[]]
  {
    var a, b := parts[i], parts[j];
    TwoApart(heap, parts, i, j, h);
    JoinedClosed(heap, now, a, b, h, level);
    JoinedAll(heap, now, a, b, h, level);
    forall n | n in heap && n !in ReachAll(heap, a, h) ensures now[n] == heap[n] {
      forall k | Joinable(a, b, k) ensures n != a[k].node {
        PartOfAll(heap, a, k, h);
        assert a[k].node in Reach(heap, a[k], h);
      }
    }
    assert ReachAll(now, map[], h) == {};
    Exchange(heap, now, parts, i, FirstWins(a, b), j, map[], h);
  }

  lemma NothingJoined(heap: Heap, a: Cells)
    ensures Joined(heap, heap, a, map[])
  {
  }

  /** No map is the item of two shared paths, on either side. */
  ghost predicate OwnItems(all: set<Node>, a: Cells, b: Cells) {
    && (forall k :: Joinable(a, b, k) ==> a[k].node in all && b[k].node in all)
    && (forall k, l :: Joinable(a, b, k) && Joinable(a, b, l) && k != l ==> a[k].node != a[l].node)
    && (forall k, l :: Joinable(a, b, k) && Joinable(a, b, l) ==> a[k].node != b[l].node)
  }

  lemma ItemsAreOwn(heap: Heap, parts: seq<Cells>, i: nat, j: nat, h: nat)
    requires Apart(heap, parts, h) && i < |parts| && j < |parts| && i != j
    ensures OwnItems(heap.Keys, parts[i], parts[j])
  {
    var a, b := parts[i], parts[j];
    TwoApart(heap, parts, i, j, h);
    forall k | Joinable(a, b, k)
      ensures Below(heap, a[k], h) && a[k].node in Reach(heap, a[k], h) && a[k].node in ReachAll(heap, a, h)
      ensures Below(heap, b[k], h) && b[k].node in Reach(heap, b[k], h) && b[k].node in ReachAll(heap, b, h)
    {
      PartOfAll(heap, a, k, h);
      PartOfAll(heap, b, k, h);
    }
  }

  lemma JoinedMore(heap: Heap, was: Heap, now: Heap, a: Cells, before: Cells, src: Cells, k: string)
    requires Joined(heap, was, a, before) && OwnItems(heap.Keys, a, src) && k in src
    requires k !in before && forall l :: l in before ==> l in src && before[l] == src[l]
    requires !Joinable(a, src, k) ==> now == was
    requires Joinable(a, src, k) && a[k].node in was && src[k].node in was ==>
               now == was[a[k].node := FirstWins(was[a[k].node], was[src[k].node])]
    ensures Joined(heap, now, a, before[k := src[k]])
  {
    var after := before[k := src[k]];
    assert forall l :: Joinable(a, after, l) <==> Joinable(a, before, l) || (l == k && Joinable(a, src, k));
    if Joinable(a, src, k) {
      assert forall l :: Joinable(a, before, l) ==> Joinable(a, src, l) && l != k;
      assert was[a[k].node] == heap[a[k].node] && was[src[k].node] == heap[src[k].node];
      assert forall l :: Joinable(a, before, l) ==> a[l].node != a[k].node;
    }
  }

  /** The maps that are items of these entries. */
  ghost function ItemMaps(f: Cells): set<Node> {
    set k | k in f && f[k].Ref? :: f[k].node
  }

  lemma OthersStay(heap: Heap, now: Heap, a: Cells, b: Cells)
    requires Joined(heap, now, a, b)
    ensures forall n :: n in heap && n !in ItemMaps(a) ==> now[n] == heap[n]
    ensures ItemMaps(FirstWins(a, b)) <= ItemMaps(a) + ItemMaps(b)
  {
    forall n | n in heap && n !in ItemMaps(a) ensures now[n] == heap[n] {
      assert forall k :: Joinable(a, b, k) ==> a[k].node in ItemMaps(a);
    }
  }
}
