/**
 Decoding: any document becomes map objects that share nothing, one for each JSON object, and
 stands for the text it was read from.  With that the served document is a function of the
 three documents fetched, whatever they hold.

 The decoder gives every map the height its place has, so the items of all paths come to lie at
 one height, as the merging in place wants them.  How a value was decoded is kept as one fact
 (DecodedAs), which later decoding leaves as it is, because it only ever adds maps.
 */
module OpenApiDecode {
  import opened Common
  import opened OpenApi
  import opened OpenApiContent
  import opened OpenApiHeap
  import opened OpenApiParts
  import opened OpenApiMerge
  import opened OpenApiServed

  // ----- depth -----

  /** Objects are nested at most h deep. */
  ghost predicate Shallow(j: Json, h: nat) {
    match j
    case Object(f) => h >= 1 && forall k :: k in f ==> Shallow(f[k], h - 1)
    case List(xs) => forall i :: 0 <= i < |xs| ==> Shallow(xs[i], h)
    case _ => true
  }

  lemma {:induction false} ShallowIn(j: Json, h: nat, g: nat)
    requires Shallow(j, h) && h <= g
    ensures Shallow(j, g)
    decreases j
  {
    match j
    case Object(f) =>
      forall k | k in f ensures Shallow(f[k], g - 1) {
        ShallowIn(f[k], h - 1, g - 1);
      }
    case List(xs) =>
      forall i | 0 <= i < |xs| ensures Shallow(xs[i], g) {
        ShallowIn(xs[i], h, g);
      }
    case _ =>
  }

  /** Every value has a depth. */
  lemma {:induction false} SomeDepth(j: Json) returns (h: nat)
    ensures Shallow(j, h)
    decreases j, 2
  {
    match j
    case Object(f) =>
      h := DepthOfKeys(j, f.Keys);
      h := h + 1;
    case List(xs) =>
      h := DepthOfItems(j, |xs|);
    case _ =>
      h := 0;
  }

  lemma {:induction false} DepthOfKeys(j: Json, ks: set<string>) returns (h: nat)
    requires j.Object? && ks <= j.fields.Keys
    ensures forall k :: k in ks ==> Shallow(j.fields[k], h)
    decreases j, 1, |ks|
  {
    h := 0;
    if k :| k in ks {
      var one := SomeDepth(j.fields[k]);
      var rest := DepthOfKeys(j, ks - {k});
      h := Max(one, rest);
      forall l | l in ks ensures Shallow(j.fields[l], h) {
        ShallowIn(j.fields[l], if l == k then one else rest, h);
      }
    }
  }

  lemma {:induction false} DepthOfItems(j: Json, n: nat) returns (h: nat)
    requires j.List? && n <= |j.items|
    ensures forall i :: 0 <= i < n ==> Shallow(j.items[i], h)
    decreases j, 1, n
  {
    h := 0;
    if n > 0 {
      var one := SomeDepth(j.items[n - 1]);
      var rest := DepthOfItems(j, n - 1);
      h := Max(one, rest);
      forall i | 0 <= i < n ensures Shallow(j.items[i], h) {
        ShallowIn(j.items[i], if i == n - 1 then one else rest, h);
      }
    }
  }

  // ----- what the decoder builds -----

  /** A map directly under a value at depth h is one lower. */
  ghost predicate OneLower(c: Cell, h: nat) {
    c.Ref? ==> c.node.height + 1 == h
  }

  /** And so are the maps in the maps of d. */
  ghost predicate Stepped(heap: Heap, d: set<Node>) {
    forall n, k :: n in d && n in heap && k in heap[n] ==> OneLower(heap[n][k], n.height)
  }

  /** c was decoded from j into the maps of d, which it does not share. */
  ghost predicate DecodedAs(heap: Heap, c: Cell, h: nat, j: Json, d: set<Node>) {
    Known(heap, c, h, j, d) && OneLower(c, h) && Stepped(heap, d)
  }

  /** Entries decoded so far. */
  ghost predicate EntriesAs(heap: Heap, f: Cells, h: nat, views: Fields, d: set<Node>) {
    KnownAll(heap, f, h, views, d) && (forall k :: k in f ==> OneLower(f[k], h)) && Stepped(heap, d)
  }

  /** Maps were added, and those there were are as they were. */
  ghost predicate Extends(heap: Heap, now: Heap) {
    forall n :: n in heap ==> n in now && now[n] == heap[n]
  }

  lemma ExtendsOn(heap: Heap, more: Heap, now: Heap)
    requires Extends(heap, more) && Extends(more, now)
    ensures Extends(heap, now)
  {
  }

  lemma OneMoreEntry(heap: Heap, now: Heap, f: Cells, h: nat, views: Fields, d: set<Node>, k: string, c: Cell, j: Json, e: set<Node>)
    requires EntriesAs(heap, f, h, views, d) && k !in f && DecodedAs(now, c, h, j, e) && d !! e
    requires Extends(heap, now)
    ensures EntriesAs(now, f[k := c], h, views[k := j], d + e)
  {
    hide Closed, Below, Unshared, View, Reach;
    AllUntouched(heap, now, f, h);
    AddEntry(now, f, h, views, d, k, c, j, e);
  }

  lemma OneMoreElement(heap: Heap, now: Heap, cs: seq<Cell>, h: nat, js: seq<Json>, d: set<Node>, c: Cell, j: Json, e: set<Node>)
    requires DecodedAs(heap, Items(cs), h, List(js), d) && DecodedAs(now, c, h, j, e) && d !! e
    requires Extends(heap, now)
    ensures DecodedAs(now, Items(cs + [c]), h, List(js + [j]), d + e)
  {
    Untouched(heap, now, Items(cs), h);
    var more := cs + [c];
    assert View(now, Items(cs), h).items == js;
    assert |cs| == |js|;
    forall i | 0 <= i < |more|
      ensures Below(now, more[i], h) && Unshared(now, more[i], h) && View(now, more[i], h) == (js + [j])[i]
      ensures Reach(now, more[i], h) <= if i < |cs| then d else e
    {
      assert i < |cs| ==> more[i] == Items(cs).cells[i] && js[i] == View(now, cs[i], h);
    }
    forall i, k | 0 <= i < k < |more| ensures Reach(now, more[i], h) !! Reach(now, more[k], h) {
      assert k < |cs| ==> more[i] == cs[i] && more[k] == cs[k];
    }
    forall x ensures x in Reach(now, Items(more), h) <==> x in d + e {
      if x in d {
        var i :| 0 <= i < |cs| && x in Reach(now, cs[i], h);
        assert more[i] == cs[i];
      }
      if x in e {
        assert more[|cs|] == c;
      }
    }
    assert View(now, Items(more), h).items == js + [j];
  }

  /** A map put around its entries. */
  lemma OneMoreMap(heap: Heap, now: Heap, n: Node, views: Fields, d: set<Node>, h: nat)
    requires n !in heap && n in now && now == heap[n := now[n]] && n.height + 1 == h && d <= heap.Keys
    requires EntriesAs(heap, now[n], n.height, views, d)
    ensures DecodedAs(now, Ref(n), h, Object(views), d + {n})
  {
    hide Closed, Below, Unshared, View, Reach;
    NewMap(heap, now, n, h);
  }

  lemma NothingYet(heap: Heap, h: nat)
    requires Closed(heap)
    ensures EntriesAs(heap, map[], h, map[], {})
    ensures DecodedAs(heap, Items([]), h, List([]), {})
  {
    var none: Cells := map[];
    assert ReachAll(heap, none, h) == {} && ViewAll(heap, none, h) == map[];
  }

  // ----- the decoder -----

  /** json.Decoder on one value: nothing that was there before is touched. */
  method Decode(ghost all: set<Node>, j: Json, ghost h: nat) returns (c: Cell, ghost now: set<Node>)
    requires Closed(Snapshot(all)) && Shallow(j, h)
    ensures all <= now && fresh(now - all)
    ensures Closed(Snapshot(now)) && DecodedAs(Snapshot(now), c, h, j, now - all)
    ensures j.Object? ==> c.Ref?
    decreases j, 1
  {
    match j
    case Object(f) =>
      c, now := DecodeMap(all, j, h);
    case List(xs) =>
      c, now := DecodeList(all, j, h);
    case _ =>
      c, now := Scalar(j), all;
  }

  /** The entries of a map without the keys still to come. */
  function Without(f: Fields, left: set<string>): Fields {
    map k | k in f && k !in left :: f[k]
  }

  lemma OneKeyLess(f: Fields, left: set<string>, k: string)
    requires k in left && left <= f.Keys
    ensures Without(f, left - {k}) == Without(f, left)[k := f[k]]
    ensures Without(f, {}) == f && Without(f, f.Keys) == map[]
  {
  }

  /** The map of an object: its entries one by one, in whatever order, and then the map around them. */
  method DecodeMap(ghost all: set<Node>, j: Json, ghost h: nat) returns (c: Cell, ghost now: set<Node>)
    requires Closed(Snapshot(all)) && j.Object? && Shallow(j, h)
    ensures all <= now && fresh(now - all) && c.Ref?
    ensures Closed(Snapshot(now)) && DecodedAs(Snapshot(now), c, h, j, now - all)
    decreases j, 0
  {
    NothingYet(Snapshot(all), h - 1);
    assert Without(j.fields, {}) == j.fields && Without(j.fields, j.fields.Keys) == map[] && all - all == {};
    hide Closed, EntriesAs, DecodedAs, Without;
    var f;
    f, now := DecodeEntries(all, all, map[], j, j.fields.Keys, h - 1);
    c, now := MapAround(all, now, f, j.fields, h);
  }

  /** The entries still to come, one by one. */
  method DecodeEntries(ghost all: set<Node>, ghost before: set<Node>, f: Cells, j: Json, left: set<string>, ghost h: nat)
    returns (g: Cells, ghost now: set<Node>)
    requires j.Object? && left <= j.fields.Keys && f.Keys == j.fields.Keys - left && forall k :: k in left ==> Shallow(j.fields[k], h)
    requires all <= before && Closed(Snapshot(before)) && EntriesAs(Snapshot(before), f, h, Without(j.fields, left), before - all)
    ensures before <= now && fresh(now - before)
    ensures Closed(Snapshot(now)) && EntriesAs(Snapshot(now), g, h, Without(j.fields, {}), now - all)
    decreases j, 0, |left|
  {
    hide Closed, EntriesAs, DecodedAs, Shallow, Without;
    if left == {} {
      return f, before;
    }
    var k :| k in left;
    OneKeyLess(j.fields, left, k);
    ghost var one;
    g, one := DecodeEntry(all, before, f, Without(j.fields, left), k, j.fields[k], h);
    g, now := DecodeEntries(all, one, g, j, left - {k}, h);
  }

  /** One more entry of a map under construction. */
  method DecodeEntry(ghost all: set<Node>, ghost before: set<Node>, f: Cells, ghost views: Fields, k: string, j: Json, ghost h: nat)
    returns (g: Cells, ghost now: set<Node>)
    requires all <= before && Closed(Snapshot(before)) && EntriesAs(Snapshot(before), f, h, views, before - all)
    requires k !in f && Shallow(j, h)
    ensures before <= now && fresh(now - before) && g.Keys == f.Keys + {k}
    ensures Closed(Snapshot(now)) && EntriesAs(Snapshot(now), g, h, views[k := j], now - all)
    decreases j, 2
  {
    hide Closed, EntriesAs, DecodedAs, Shallow;
    var one;
    one, now := Decode(before, j, h);
    OneMoreEntry(Snapshot(before), Snapshot(now), f, h, views, before - all, k, one, j, now - before);
    assert now - all == (before - all) + (now - before);
    g := f[k := one];
  }

  /** The map itself. */
  method MapAround(ghost all: set<Node>, ghost before: set<Node>, f: Cells, ghost views: Fields, ghost h: nat)
    returns (c: Cell, ghost now: set<Node>)
    requires all <= before && h >= 1 && EntriesAs(Snapshot(before), f, h - 1, views, before - all)
    ensures before <= now && fresh(now - before) && c.Ref?
    ensures Closed(Snapshot(now)) && DecodedAs(Snapshot(now), c, h, Object(views), now - all)
  {
    var n := new Node(h - 1);
    n.fields := f;
    now := before + {n};
    OneMoreMap(Snapshot(before), Snapshot(now), n, views, before - all, h);
    assert now - all == (before - all) + {n};
    c := Ref(n);
  }

  /** A list's elements in order. */
  method DecodeList(ghost all: set<Node>, j: Json, ghost h: nat) returns (c: Cell, ghost now: set<Node>)
    requires Closed(Snapshot(all)) && j.List? && Shallow(j, h)
    ensures all <= now && fresh(now - all)
    ensures Closed(Snapshot(now)) && DecodedAs(Snapshot(now), c, h, j, now - all)
    decreases j, 0
  {
    NothingYet(Snapshot(all), h);
    assert forall i :: 0 <= i < |j.items| ==> Shallow(j.items[i], h);
    hide Closed, DecodedAs, Shallow;
    var cs: seq<Cell> := [];
    now := all;
    assert now - all == {} && j.items[..0] == [];
    var i := 0;
    while i < |j.items|
      invariant 0 <= i <= |j.items| && all <= now && fresh(now - all)
      invariant Closed(Snapshot(now)) && DecodedAs(Snapshot(now), Items(cs), h, List(j.items[..i]), now - all)
    {
      cs, now := DecodeElement(all, now, cs, j.items[..i], j.items[i], h);
      assert j.items[..i + 1] == j.items[..i] + [j.items[i]];
      i := i + 1;
    }
    assert j.items[..i] == j.items;
    c := Items(cs);
  }

  method DecodeElement(ghost all: set<Node>, ghost before: set<Node>, cs: seq<Cell>, ghost js: seq<Json>, j: Json, ghost h: nat)
    returns (more: seq<Cell>, ghost now: set<Node>)
    requires all <= before && Closed(Snapshot(before)) && DecodedAs(Snapshot(before), Items(cs), h, List(js), before - all)
    requires Shallow(j, h)
    ensures before <= now && fresh(now - before)
    ensures Closed(Snapshot(now)) && DecodedAs(Snapshot(now), Items(more), h, List(js + [j]), now - all)
    decreases j, 2
  {
    hide Closed, DecodedAs, Shallow;
    var one;
    one, now := Decode(before, j, h);
    OneMoreElement(Snapshot(before), Snapshot(now), cs, h, js, before - all, one, j, now - before);
    assert now - all == (before - all) + (now - before);
    more := cs + [one];
  }

  // ----- the documents of the handler -----

  /** A document as fetched: absent, or a map. */
  ghost predicate DocumentAs(heap: Heap, n: Option<Node>, h: nat, doc: Fetched, d: set<Node>) {
    match n
    case None => doc == None && d == {} && Closed(heap)
    case Some(root) => doc.Some? && DecodedAs(heap, Ref(root), h, Object(doc.value), d)
  }

  method DecodeDocument(ghost all: set<Node>, doc: Fetched, ghost h: nat) returns (n: Option<Node>, ghost now: set<Node>)
    requires Closed(Snapshot(all)) && Shallow(Object(Doc(doc)), h)
    ensures all <= now && fresh(now - all)
    ensures Closed(Snapshot(now)) && DocumentAs(Snapshot(now), n, h, doc, now - all)
  {
    if doc.None? {
      n, now := None, all;
      assert now - all == {};
    } else {
      var c;
      c, now := Decode(all, Object(doc.value), h);
      n := Some(c.node);
    }
  }

  /** What is decoded later leaves a document as it is. */
  lemma DocumentStays(heap: Heap, now: Heap, n: Option<Node>, h: nat, doc: Fetched, d: set<Node>)
    requires DocumentAs(heap, n, h, doc, d) && Closed(now) && Extends(heap, now)
    ensures DocumentAs(now, n, h, doc, d)
  {
    if n.Some? {
      Untouched(heap, now, Ref(n.value), h);
    }
  }

  /** A decoded document is one the handler can take. */
  lemma DocumentIsWhole(heap: Heap, n: Option<Node>, h: nat, doc: Fetched, d: set<Node>, swagger: bool)
    requires DocumentAs(heap, n, h, doc, d)
    ensures Whole(heap, n, h) && ReachOf(heap, n, h) == d && FieldsOf(heap, n, h) == Doc(doc) && FetchedAs(heap, n, h) == doc
    ensures Level(SectionsOf(heap, n, swagger)[0], if h >= 3 then h - 3 else 0)
  {
    if n.Some? {
      var root := n.value;
      assert root in Reach(heap, Ref(root), h);
      if "paths" in heap[root] && heap[root]["paths"].Ref? {
        assert OneLower(heap[root]["paths"], root.height);
        var paths := heap[root]["paths"].node;
        assert Below(heap, heap[root]["paths"], root.height);
        assert paths in Reach(heap, heap[root]["paths"], root.height);
        assert paths in d;
      }
    }
  }

  lemma CommonDepth(docs: seq<Json>) returns (h: nat)
    ensures h >= 1 && forall i :: 0 <= i < |docs| ==> Shallow(docs[i], h)
  {
    var below := DepthOfItems(List(docs), |docs|);
    h := below + 1;
    forall i | 0 <= i < |docs| ensures Shallow(docs[i], h) {
      ShallowIn(docs[i], below, h);
    }
  }

  lemma DepthOfAll(info: Json, auth: Fetched, meta: Fetched, upload: Fetched) returns (h: nat)
    ensures h >= 1
    ensures Shallow(info, h) && Shallow(Object(Doc(auth)), h) && Shallow(Object(Doc(meta)), h) && Shallow(Object(Doc(upload)), h)
  {
    var trees := [info, Object(Doc(auth)), Object(Doc(meta)), Object(Doc(upload))];
    h := CommonDepth(trees);
    assert Shallow(trees[0], h) && Shallow(trees[1], h) && Shallow(trees[2], h) && Shallow(trees[3], h);
  }

  /** Three documents and the info block, decoded one after the other. */
  lemma AllDecoded(one: Heap, two: Heap, three: Heap, heap: Heap, i: Cell, a: Option<Node>, m: Option<Node>, u: Option<Node>, h: nat,
                   info: Json, auth: Fetched, meta: Fetched, upload: Fetched)
    requires Extends(one, two) && Extends(two, three) && Extends(three, heap)
    requires DocumentAs(one, a, h, auth, one.Keys) && DocumentAs(two, m, h, meta, two.Keys - one.Keys)
    requires DocumentAs(three, u, h, upload, three.Keys - two.Keys) && DecodedAs(heap, i, h, info, heap.Keys - three.Keys)
    ensures Decoded(heap, i, a, m, u, h, if h >= 3 then h - 3 else 0) && View(heap, i, h) == info
    ensures FetchedAs(heap, a, h) == auth && FetchedAs(heap, m, h) == meta && FetchedAs(heap, u, h) == upload
  {
    assert Closed(heap) && Below(heap, i, h) && Unshared(heap, i, h) && View(heap, i, h) == info;
    assert Reach(heap, i, h) == heap.Keys - three.Keys;
    ExtendsOn(two, three, heap);
    ExtendsOn(one, two, heap);
    assert one.Keys !! two.Keys - one.Keys !! three.Keys - two.Keys !! heap.Keys - three.Keys;
    hide Extends, DocumentAs, DecodedAs, Whole, Closed, Below, Unshared, Reach, View, ReachOf, FieldsOf, FetchedAs, SectionsOf, Level;
    DocumentStays(one, heap, a, h, auth, one.Keys);
    DocumentStays(two, heap, m, h, meta, two.Keys - one.Keys);
    DocumentStays(three, heap, u, h, upload, three.Keys - two.Keys);
    DocumentIsWhole(heap, a, h, auth, one.Keys, false);
    DocumentIsWhole(heap, m, h, meta, two.Keys - one.Keys, true);
    DocumentIsWhole(heap, u, h, upload, three.Keys - two.Keys, true);
  }

  /** What was fetched, decoded. */
  method DecodeAll(info: Json, auth: Fetched, meta: Fetched, upload: Fetched, ghost h: nat)
    returns (i: Cell, a: Option<Node>, m: Option<Node>, u: Option<Node>, ghost docs: set<Node>)
    requires Shallow(info, h) && Shallow(Object(Doc(auth)), h) && Shallow(Object(Doc(meta)), h) && Shallow(Object(Doc(upload)), h)
    ensures fresh(docs) && Decoded(Snapshot(docs), i, a, m, u, h, if h >= 3 then h - 3 else 0)
    ensures View(Snapshot(docs), i, h) == info
    ensures FetchedAs(Snapshot(docs), a, h) == auth && FetchedAs(Snapshot(docs), m, h) == meta && FetchedAs(Snapshot(docs), u, h) == upload
  {
    hide Shallow, DocumentAs, DecodedAs, Decoded;
    ghost var one, two, three;
    a, one := DecodeDocument({}, auth, h);
    m, two := DecodeDocument(one, meta, h);
    u, three := DecodeDocument(two, upload, h);
    i, docs := Decode(three, info, h);
    assert one - {} == one == Snapshot(one).Keys && two - one == Snapshot(two).Keys - Snapshot(one).Keys;
    assert three - two == Snapshot(three).Keys - Snapshot(two).Keys && docs - three == Snapshot(docs).Keys - Snapshot(three).Keys;
    AllDecoded(Snapshot(one), Snapshot(two), Snapshot(three), Snapshot(docs), i, a, m, u, h, info, auth, meta, upload);
  }

  /**
   GET of the merged document, over any three documents fetched or not and any info block: no
   decoded document is outside what the merging in place can take, so what is served stands for
   the rewritten merge of what was fetched, each path, method, schema and scheme in its place.
   */
  method ServeMerged(info: Json, auth: Fetched, meta: Fetched, upload: Fetched) returns (merged: Node, ghost all: set<Node>, ghost h: nat)
    ensures fresh(all) && Closed(Snapshot(all)) && Below(Snapshot(all), Ref(merged), h)
    ensures View(Snapshot(all), Ref(merged), h) == Rewritten(Merged(info, auth, meta, upload))
    ensures ServedFrom(View(Snapshot(all), Ref(merged), h), info, auth, meta, upload)
  {
    hide ServedFrom, Decoded, Closed, Below, View, Reach, Unshared, Shallow, FetchedAs, Rewritten, Merged;
    ghost var depth := DepthOfAll(info, auth, meta, upload);
    var i, a, m, u;
    ghost var docs;
    i, a, m, u, docs := DecodeAll(info, auth, meta, upload, depth);
    merged, all := HandleMerged(docs, i, a, m, u, depth, if depth >= 3 then depth - 3 else 0);
    h := depth + 3;
  }
}
