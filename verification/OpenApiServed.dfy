/**
 The documents handler from decoded documents to the served one: three documents merged in
 place, the maps around them, and the rewriting of the result.

 A stage sees the maps as thirteen parts that share nothing: the merged paths, schemas and
 security schemes, the same three sections of each document, and the info block.  DefaultSchemes
 fills the third part; MergeFirst and MergeNext pour one document into the first three, leaving
 what is still to be poured as it was; Surround puts the components, the servers and the root
 around the three.  Since the parts still share nothing then, the served document holds no map
 in two places, and rewriting it in place is rewriting the tree it stands for.
 */
module OpenApiServed {
  import opened Common
  import opened OpenApi
  import opened OpenApiContent
  import opened OpenApiHeap
  import opened OpenApiParts
  import opened OpenApiMerge

  // ----- the documents -----

  /**
   Three decoded documents and the info block: nothing is held twice.  `h` and the maps' heights
   only bound depths; they are chosen so that all path items have the same, `level`, which
   leaves room for the methods one of them takes over from another.
   */
  ghost predicate Decoded(heap: Heap, info: Cell, auth: Option<Node>, meta: Option<Node>, upload: Option<Node>, h: nat, level: nat) {
    && Whole(heap, auth, h) && Whole(heap, meta, h) && Whole(heap, upload, h)
    && Below(heap, info, h) && Unshared(heap, info, h)
    && ReachOf(heap, auth, h) !! ReachOf(heap, meta, h) !! ReachOf(heap, upload, h) !! Reach(heap, info, h)
    && Level(SectionsOf(heap, auth, false)[0], level)
    && Level(SectionsOf(heap, meta, true)[0], level)
    && Level(SectionsOf(heap, upload, true)[0], level)
  }

  ghost predicate Within(heap: Heap, parts: seq<Cells>, h: nat, maps: set<Node>)
    requires Apart(heap, parts, h)
  {
    forall i :: 0 <= i < |parts| ==> ReachAll(heap, parts[i], h) <= maps
  }

  lemma MoreParts(heap: Heap, a: seq<Cells>, b: seq<Cells>, h: nat, x: set<Node>, y: set<Node>)
    requires Apart(heap, a, h) && Apart(heap, b, h) && Within(heap, a, h, x) && Within(heap, b, h, y) && x !! y
    ensures Apart(heap, a + b, h) && Within(heap, a + b, h, x + y)
    ensures Views(heap, a + b, h) == Views(heap, a, h) + Views(heap, b, h)
  {
    var all := a + b;
    forall i | 0 <= i < |all|
      ensures all[i] == if i < |a| then a[i] else b[i - |a|]
      ensures AllBelow(heap, all[i], h) && UnsharedAll(heap, all[i], h)
      ensures ReachAll(heap, all[i], h) <= if i < |a| then x else y
    {
    }
    forall i, j | 0 <= i < j < |all| ensures ReachAll(heap, all[i], h) !! ReachAll(heap, all[j], h) {
      if i < |a| <= j {
      } else if j < |a| {
        TwoApart(heap, a, i, j, h);
      } else {
        TwoApart(heap, b, i - |a|, j - |a|, h);
      }
    }
  }

  ghost function Parts(heap: Heap, info: Cell, auth: Option<Node>, meta: Option<Node>, upload: Option<Node>): seq<Cells> {
    [map[], map[], map[]] + SectionsOf(heap, auth, false) + SectionsOf(heap, meta, true) + SectionsOf(heap, upload, true)
    + [map["info" := info]]
  }

  ghost predicate Held(heap: Heap, parts: seq<Cells>, views: seq<Fields>, h: nat, maps: set<Node>) {
    Apart(heap, parts, h) && Within(heap, parts, h, maps) && Views(heap, parts, h) == views
  }

  lemma OneMoreDocument(heap: Heap, parts: seq<Cells>, views: seq<Fields>, doc: Option<Node>, swagger: bool, h: nat, maps: set<Node>)
    requires Held(heap, parts, views, h, maps) && Whole(heap, doc, h) && maps !! ReachOf(heap, doc, h)
    ensures Held(heap, parts + SectionsOf(heap, doc, swagger), views + Taken(FieldsOf(heap, doc, h), swagger), h, maps + ReachOf(heap, doc, h))
  {
    if swagger {
      SwaggerSections(heap, doc, h);
    } else {
      ComponentSections(heap, doc, h);
    }
    MoreParts(heap, parts, SectionsOf(heap, doc, swagger), h, maps, ReachOf(heap, doc, h));
  }

  lemma OneMoreValue(heap: Heap, parts: seq<Cells>, views: seq<Fields>, k: string, c: Cell, h: nat, maps: set<Node>)
    requires Held(heap, parts, views, h, maps) && Below(heap, c, h) && Unshared(heap, c, h) && maps !! Reach(heap, c, h)
    ensures Held(heap, parts + [map[k := c]], views + [map[k := View(heap, c, h)]], h, maps + Reach(heap, c, h))
  {
    var last: Cells := map[k := c];
    OneEntry(heap, k, c, h);
    assert Apart(heap, [last], h) && Within(heap, [last], h, Reach(heap, c, h));
    MoreParts(heap, parts, [last], h, maps, Reach(heap, c, h));
  }

  lemma EmptyParts(heap: Heap, h: nat)
    requires Closed(heap)
    ensures Held(heap, [map[], map[], map[]], [map[], map[], map[]], h, {})
  {
    var none: Cells := map[];
    assert ReachAll(heap, none, h) == {} && ViewAll(heap, none, h) == map[];
  }

  function StartViews(info: Json, auth: Fields, meta: Fields, upload: Fields): seq<Fields> {
    [map[], map[], map[]] + Taken(auth, false) + Taken(meta, true) + Taken(upload, true) + [map["info" := info]]
  }

  lemma PartsApart(heap: Heap, info: Cell, auth: Option<Node>, meta: Option<Node>, upload: Option<Node>, h: nat, level: nat)
    requires Decoded(heap, info, auth, meta, upload, h, level)
    ensures Apart(heap, Parts(heap, info, auth, meta, upload), h)
    ensures Views(heap, Parts(heap, info, auth, meta, upload), h) ==
            StartViews(View(heap, info, h), FieldsOf(heap, auth, h), FieldsOf(heap, meta, h), FieldsOf(heap, upload, h))
  {
    EmptyParts(heap, h);
    var a, m, u := ReachOf(heap, auth, h), ReachOf(heap, meta, h), ReachOf(heap, upload, h);
    var parts: seq<Cells>, views: seq<Fields> := [map[], map[], map[]], [map[], map[], map[]];
    OneMoreDocument(heap, parts, views, auth, false, h, {});
    parts, views := parts + SectionsOf(heap, auth, false), views + Taken(FieldsOf(heap, auth, h), false);
    OneMoreDocument(heap, parts, views, meta, true, h, {} + a);
    parts, views := parts + SectionsOf(heap, meta, true), views + Taken(FieldsOf(heap, meta, h), true);
    OneMoreDocument(heap, parts, views, upload, true, h, {} + a + m);
    parts, views := parts + SectionsOf(heap, upload, true), views + Taken(FieldsOf(heap, upload, h), true);
    OneMoreValue(heap, parts, views, "info", info, h, {} + a + m + u);
  }

  /** What fetchMap returned, as OpenApi sees it. */
  ghost function FetchedAs(heap: Heap, doc: Option<Node>, h: nat): (r: Fetched)
    requires Whole(heap, doc, h)
    ensures Doc(r) == FieldsOf(heap, doc, h)
  {
    if doc.None? then None else Some(FieldsOf(heap, doc, h))
  }

  // ----- the document around its sections -----

  const VERSION := Scalar(Str("3.0.1"))

  /** The maps of the merged document, besides those of its sections' entries. */
  datatype Frame = Frame(paths: Node, schemas: Node, schemes: Node, components: Node, server: Node, root: Node)

  ghost predicate FrameOk(heap: Heap, f: Frame, h: nat) {
    && f.paths.height == f.schemas.height == f.schemes.height == h
    && f.components.height == h + 1 && f.root.height == h + 2 && f.server.height == 0
    && f.paths !in heap && f.schemas !in heap && f.schemes !in heap && f.components !in heap && f.server !in heap && f.root !in heap
    && f.paths != f.schemas && f.paths != f.schemes && f.schemas != f.schemes && f.server !in {f.paths, f.schemas, f.schemes}
  }

  function ServerCells(): Cells {
    map["url" := Scalar(Str("/"))]
  }

  function ComponentCells(f: Frame): Cells {
    map["schemas" := Ref(f.schemas), "securitySchemes" := Ref(f.schemes)]
  }

  function RootCells(f: Frame, info: Cell): Cells {
    map["openapi" := VERSION, "info" := info, "servers" := Items([Ref(f.server)]), "paths" := Ref(f.paths), "components" := Ref(f.components)]
  }

  /** The three sections and the info block, before and after the sections' own maps are there. */
  ghost predicate Contents(heap: Heap, p: Cells, s: Cells, e: Cells, info: Cell, h: nat, v: seq<Fields>, i: Json, r: seq<set<Node>>) {
    && |v| == 3 && |r| == 4
    && KnownAll(heap, p, h, v[0], r[0]) && KnownAll(heap, s, h, v[1], r[1]) && KnownAll(heap, e, h, v[2], r[2])
    && Known(heap, info, h, i, r[3])
    && r[0] !! r[1] !! r[2] !! r[3]
  }

  /** The info block and the maps of the three sections. */
  ghost predicate Sheets(heap: Heap, f: Frame, info: Cell, h: nat, v: seq<Fields>, i: Json, r: seq<set<Node>>) {
    && |v| == 3 && |r| == 4
    && Known(heap, Ref(f.paths), h + 1, Object(v[0]), r[0])
    && Known(heap, Ref(f.schemas), h + 1, Object(v[1]), r[1])
    && Known(heap, Ref(f.schemes), h + 1, Object(v[2]), r[2])
    && Known(heap, info, h + 1, i, r[3])
    && r[0] !! r[1] !! r[2] !! r[3]
  }

  function WithMaps(f: Frame, r: seq<set<Node>>): seq<set<Node>>
    requires |r| == 4
  {
    [{f.paths} + r[0], {f.schemas} + r[1], {f.schemes} + r[2], r[3]]
  }

  lemma SectionMaps(heap: Heap, now: Heap, f: Frame, p: Cells, s: Cells, e: Cells, info: Cell, h: nat, v: seq<Fields>, i: Json, r: seq<set<Node>>)
    requires Contents(heap, p, s, e, info, h, v, i, r) && FrameOk(heap, f, h)
    requires now == heap[f.paths := p][f.schemas := s][f.schemes := e]
    ensures Sheets(now, f, info, h, v, i, WithMaps(f, r))
  {
    hide Closed, Below, Unshared, View, Reach;
    var one := heap[f.paths := p];
    NewMap(heap, one, f.paths, h + 1);
    CarryAll(heap, one, f.paths, s, h, v[1], r[1]);
    CarryAll(heap, one, f.paths, e, h, v[2], r[2]);
    Carry(heap, one, f.paths, info, h, i, r[3]);
    var two := one[f.schemas := s];
    NewMap(one, two, f.schemas, h + 1);
    Carry(one, two, f.schemas, Ref(f.paths), h + 1, Object(v[0]), {f.paths} + r[0]);
    CarryAll(one, two, f.schemas, e, h, v[2], r[2]);
    Carry(one, two, f.schemas, info, h, i, r[3]);
    NewMap(two, now, f.schemes, h + 1);
    Carry(two, now, f.schemes, Ref(f.paths), h + 1, Object(v[0]), {f.paths} + r[0]);
    Carry(two, now, f.schemes, Ref(f.schemas), h + 1, Object(v[1]), {f.schemas} + r[1]);
    Carry(two, now, f.schemes, info, h, i, r[3]);
    AnyBound(now, info, h, h + 1);
  }

  lemma CarrySheets(heap: Heap, now: Heap, n: Node, f: Frame, info: Cell, h: nat, v: seq<Fields>, i: Json, r: seq<set<Node>>)
    requires Sheets(heap, f, info, h, v, i, r) && n !in heap && n in now && Closed(now) && now == heap[n := now[n]]
    ensures Sheets(now, f, info, h, v, i, r) && n !in r[0] + r[1] + r[2] + r[3]
  {
    Carry(heap, now, n, Ref(f.paths), h + 1, Object(v[0]), r[0]);
    Carry(heap, now, n, Ref(f.schemas), h + 1, Object(v[1]), r[1]);
    Carry(heap, now, n, Ref(f.schemes), h + 1, Object(v[2]), r[2]);
    Carry(heap, now, n, info, h + 1, i, r[3]);
  }

  /** "servers" with its one map. */
  lemma ServersItem(heap: Heap, now: Heap, f: Frame, h: nat)
    requires Closed(heap) && f.server !in heap && f.server.height == 0 && now == heap[f.server := ServerCells()]
    ensures Known(now, Items([Ref(f.server)]), h + 1, List([Object(map["url" := Str("/")])]), {f.server})
  {
    hide Closed, Below, Unshared, View, Reach;
    TextsKnown(heap, ServerCells(), 0);
    NewMap(heap, now, f.server, h + 1);
    assert (map k | k in ServerCells() :: ServerCells()[k].json) == map["url" := Str("/")];
    OneItem(now, Ref(f.server), h + 1, Object(map["url" := Str("/")]), {f.server});
  }

  /** What the document is put together from. */
  ghost predicate Assembly(heap: Heap, f: Frame, info: Cell, h: nat, i: Json, p: Json, c: Json, ri: set<Node>, rp: set<Node>, rc: set<Node>) {
    && Known(heap, info, h, i, ri) && Known(heap, Ref(f.paths), h, p, rp) && Known(heap, Ref(f.components), h, c, rc)
    && Known(heap, Items([Ref(f.server)]), h, List([Object(map["url" := Str("/")])]), {f.server})
    && ri !! rp !! rc !! {f.server}
  }

  function StartFields(i: Json): Fields {
    map["openapi" := Str("3.0.1"), "info" := i, "servers" := List([Object(map["url" := Str("/")])])]
  }

  function RootStart(f: Frame, info: Cell): Cells {
    map["openapi" := VERSION, "info" := info, "servers" := Items([Ref(f.server)])]
  }

  lemma RootStartKnown(heap: Heap, f: Frame, info: Cell, h: nat, i: Json, ri: set<Node>)
    requires Known(heap, info, h, i, ri) && f.server !in ri
    requires Known(heap, Items([Ref(f.server)]), h, List([Object(map["url" := Str("/")])]), {f.server})
    ensures KnownAll(heap, RootStart(f, info), h, StartFields(i), ri + {f.server})
  {
    hide Closed, Below, Unshared, View, Reach;
    assert "openapi"[0] == 'o' && "info"[0] == 'i' && "servers"[0] == 's';
    var f1: Cells, v1: Fields := map["openapi" := VERSION], map["openapi" := Str("3.0.1")];
    TextsKnown(heap, f1, h);
    assert (map k | k in f1 :: f1[k].json) == v1;
    AddEntry(heap, f1, h, v1, {}, "info", info, i, ri);
    AddEntry(heap, f1["info" := info], h, v1["info" := i], {} + ri, "servers", Items([Ref(f.server)]),
             List([Object(map["url" := Str("/")])]), {f.server});
    assert RootStart(f, info) == f1["info" := info]["servers" := Items([Ref(f.server)])];
    assert StartFields(i) == v1["info" := i]["servers" := List([Object(map["url" := Str("/")])])];
    assert {} + ri + {f.server} == ri + {f.server};
  }

  lemma RootKnown(heap: Heap, f: Frame, info: Cell, h: nat, i: Json, p: Json, c: Json, ri: set<Node>, rp: set<Node>, rc: set<Node>)
    requires Assembly(heap, f, info, h, i, p, c, ri, rp, rc)
    ensures KnownAll(heap, RootCells(f, info), h, StartFields(i)["paths" := p]["components" := c], ri + {f.server} + rp + rc)
  {
    hide Closed, Below, Unshared, View, Reach;
    assert "openapi"[0] == 'o' && "info"[0] == 'i' && "servers"[0] == 's' && "paths"[0] == 'p' && "components"[0] == 'c';
    var start := RootStart(f, info);
    RootStartKnown(heap, f, info, h, i, ri);
    AddEntry(heap, start, h, StartFields(i), ri + {f.server}, "paths", Ref(f.paths), p, rp);
    AddEntry(heap, start["paths" := Ref(f.paths)], h, StartFields(i)["paths" := p], ri + {f.server} + rp, "components", Ref(f.components), c, rc);
    assert RootCells(f, info) == start["paths" := Ref(f.paths)]["components" := Ref(f.components)];
  }

  lemma RootMap(heap: Heap, now: Heap, f: Frame, info: Cell, h: nat, i: Json, p: Json, c: Json, ri: set<Node>, rp: set<Node>, rc: set<Node>)
    requires Assembly(heap, f, info, h, i, p, c, ri, rp, rc)
    requires f.root !in heap && f.root.height == h && now == heap[f.root := RootCells(f, info)]
    ensures Known(now, Ref(f.root), h + 1, Object(StartFields(i)["paths" := p]["components" := c]),
                  {f.root} + (ri + {f.server} + rp + rc))
  {
    hide Closed, Below, Unshared, View, Reach, Assembly, StartFields;
    RootKnown(heap, f, info, h, i, p, c, ri, rp, rc);
    assert now[f.root] == RootCells(f, info);
    NewMap(heap, now, f.root, h + 1);
  }

  /** With "servers" and "components" in place. */
  lemma InnerMaps(heap: Heap, four: Heap, now: Heap, f: Frame, info: Cell, h: nat, v: seq<Fields>, i: Json, r: seq<set<Node>>)
    requires Sheets(heap, f, info, h, v, i, r)
    requires f.server !in heap && f.server.height == 0 && four == heap[f.server := ServerCells()]
    requires f.components !in four && f.components.height == h + 1 && now == four[f.components := ComponentCells(f)]
    ensures Assembly(now, f, info, h + 2, i, Object(v[0]), ComponentsJson(v), r[3], r[0], {f.components} + (r[1] + r[2]))
  {
    hide Closed, Below, Unshared, View, Reach;
    var list := List([Object(map["url" := Str("/")])]);
    ServersItem(heap, four, f, h);
    CarrySheets(heap, four, f.server, f, info, h, v, i, r);
    var one: Cells := map["schemas" := Ref(f.schemas)];
    assert |"schemas"| != |"securitySchemes"|;
    OneEntry(four, "schemas", Ref(f.schemas), h + 1);
    AddEntry(four, one, h + 1, map["schemas" := Object(v[1])], r[1], "securitySchemes", Ref(f.schemes), Object(v[2]), r[2]);
    assert ComponentCells(f) == one["securitySchemes" := Ref(f.schemes)] == now[f.components];
    NewMap(four, now, f.components, h + 2);
    CarrySheets(four, now, f.components, f, info, h, v, i, r);
    Carry(four, now, f.components, Items([Ref(f.server)]), h + 1, list, {f.server});
    AnyBound(now, info, h + 1, h + 2);
    AnyBound(now, Ref(f.paths), h + 1, h + 2);
    AnyBound(now, Items([Ref(f.server)]), h + 1, h + 2);
  }

  function ComponentsJson(v: seq<Fields>): Json
    requires |v| == 3
  {
    Object(map["schemas" := Object(v[1]), "securitySchemes" := Object(v[2])])
  }

  /** The document around its sections: nothing in it twice, and it stands for OpenApi.Document. */
  lemma Assembled(heap: Heap, now: Heap, f: Frame, p: Cells, s: Cells, e: Cells, info: Cell, h: nat, v: seq<Fields>, i: Json, r: seq<set<Node>>)
    requires Contents(heap, p, s, e, info, h, v, i, r) && FrameOk(heap, f, h)
    requires now == heap[f.paths := p][f.schemas := s][f.schemes := e][f.server := ServerCells()][f.components := ComponentCells(f)]
                        [f.root := RootCells(f, info)]
    ensures Closed(now) && Below(now, Ref(f.root), h + 3) && Unshared(now, Ref(f.root), h + 3)
    ensures View(now, Ref(f.root), h + 3) == Document(i, v[0], v[1], v[2])
  {
    hide Closed, Below, Unshared, View, Reach, KnownAll, Sheets, Assembly;
    var three := heap[f.paths := p][f.schemas := s][f.schemes := e];
    var four := three[f.server := ServerCells()];
    var five := four[f.components := ComponentCells(f)];
    SectionMaps(heap, three, f, p, s, e, info, h, v, i, r);
    var all := WithMaps(f, r);
    InnerMaps(three, four, five, f, info, h, v, i, all);
    RootMap(five, now, f, info, h + 2, i, Object(v[0]), ComponentsJson(v), all[3], all[0], {f.components} + (all[1] + all[2]));
    assert StartFields(i)["paths" := Object(v[0])]["components" := ComponentsJson(v)] == Document(i, v[0], v[1], v[2]).fields;
  }

  /** The sections and the info block, as parts. */
  lemma ContentsOf(heap: Heap, parts: seq<Cells>, info: Cell, h: nat) returns (r: seq<set<Node>>)
    requires Apart(heap, parts, h) && |parts| == 13 && parts[12] == map["info" := info]
    ensures Below(heap, info, h)
    ensures Contents(heap, parts[0], parts[1], parts[2], info, h, Views(heap, parts, h)[..3], View(heap, info, h), r)
    ensures Views(heap, parts, h)[12] == map["info" := View(heap, info, h)]
  {
    assert "info" in parts[12] && parts[12]["info"] == info;
    OneEntry(heap, "info", info, h);
    r := [ReachAll(heap, parts[0], h), ReachAll(heap, parts[1], h), ReachAll(heap, parts[2], h), ReachAll(heap, parts[12], h)];
    TwoApart(heap, parts, 0, 1, h);
    TwoApart(heap, parts, 0, 2, h);
    TwoApart(heap, parts, 1, 2, h);
    TwoApart(heap, parts, 0, 12, h);
    TwoApart(heap, parts, 1, 12, h);
    TwoApart(heap, parts, 2, 12, h);
  }

  ghost function MapsOf(f: Frame): set<Node> {
    {f.paths, f.schemas, f.schemes, f.components, f.server, f.root}
  }

  /** The merged maps, with the document's own around them. */
  ghost function Surrounded(heap: Heap, f: Frame, p: Cells, s: Cells, e: Cells, info: Cell): Heap {
    heap[f.paths := p][f.schemas := s][f.schemes := e][f.server := ServerCells()][f.components := ComponentCells(f)]
        [f.root := RootCells(f, info)]
  }

  /** The merged maps, put into the document around them. */
  lemma Finished(heap: Heap, now: Heap, f: Frame, parts: seq<Cells>, info: Cell, h: nat)
    requires Apart(heap, parts, h) && |parts| == 13 && parts[12] == map["info" := info] && FrameOk(heap, f, h)
    requires now == Surrounded(heap, f, parts[0], parts[1], parts[2], info)
    ensures Closed(now) && Below(now, Ref(f.root), h + 3) && Visited(now, Ref(f.root), h + 3) !! Hidden(now, Ref(f.root), h + 3)
    ensures Closed(heap) && Below(heap, info, h)
    ensures var v := Views(heap, parts, h);
            && v[12] == map["info" := View(heap, info, h)]
            && View(now, Ref(f.root), h + 3) == Document(View(heap, info, h), v[0], v[1], v[2])
  {
    var r := ContentsOf(heap, parts, info, h);
    var v := Views(heap, parts, h)[..3];
    Assembled(heap, now, f, parts[0], parts[1], parts[2], info, h, v, View(heap, info, h), r);
    UnsharedQualifies(now, Ref(f.root), h + 3);
  }

  lemma AddedToSnapshot(all: set<Node>, n: Node)
    ensures Snapshot(all + {n}) == Snapshot(all)[n := n.fields]
  {
  }

  /** The maps around the sections. */
  method Surround(ghost all: set<Node>, info: Cell, paths: Node, schemas: Node, schemes: Node, ghost h: nat) returns (merged: Node, ghost f: Frame)
    requires paths !in all && schemas !in all && schemes !in all && paths != schemas && paths != schemes && schemas != schemes
    requires paths.height == schemas.height == schemes.height == h
    ensures f.paths == paths && f.schemas == schemas && f.schemes == schemes && f.root == merged
    ensures fresh({f.components, f.server, merged}) && FrameOk(Snapshot(all), f, h)
    ensures Snapshot(all + MapsOf(f)) == Surrounded(Snapshot(all), f, paths.fields, schemas.fields, schemes.fields, info)
  {
    var components := new Node(h + 1);
    components.fields := map["schemas" := Ref(schemas), "securitySchemes" := Ref(schemes)];
    var server := new Node(0);
    server.fields := map["url" := Scalar(Str("/"))];
    merged := new Node(h + 2);
    merged.fields := map["openapi" := VERSION, "info" := info, "servers" := Items([Ref(server)]),
                         "paths" := Ref(paths), "components" := Ref(components)];
    f := Frame(paths, schemas, schemes, components, server, merged);
    AddedToSnapshot(all, paths);
    AddedToSnapshot(all + {paths}, schemas);
    AddedToSnapshot(all + {paths} + {schemas}, schemes);
    AddedToSnapshot(all + {paths} + {schemas} + {schemes}, server);
    AddedToSnapshot(all + {paths} + {schemas} + {schemes} + {server}, components);
    AddedToSnapshot(all + {paths} + {schemas} + {schemes} + {server} + {components}, merged);
    assert all + MapsOf(f) == all + {paths} + {schemas} + {schemes} + {server} + {components} + {merged};
  }

  // ----- the default schemes -----

  const HINT := "Type \"Bearer {token}\""

  function HttpBearer(): Cells {
    map["type" := Scalar(Str("http")), "scheme" := Scalar(Str("bearer"))]
  }

  lemma BearerKnown(heap: Heap, now: Heap, bearer: Node, h: nat)
    requires Closed(heap) && bearer !in heap && bearer.height == 0 < h && now == heap[bearer := Bearer(Scalar(Str(HINT)))]
    ensures Known(now, Ref(bearer), h, DEFAULT_SCHEMES["BearerAuth"], {bearer})
  {
    BearerParts(heap, Scalar(Str(HINT)), 0);
    NewMap(heap, now, bearer, h);
  }

  lemma BasicKnown(heap: Heap, now: Heap, basic: Node, h: nat)
    requires Closed(heap) && basic !in heap && basic.height == 0 < h && now == heap[basic := HttpBearer()]
    ensures Known(now, Ref(basic), h, DEFAULT_SCHEMES["HTTPBearer"], {basic})
  {
    hide Closed, Below, Unshared, View, Reach;
    TextsKnown(heap, HttpBearer(), 0);
    NewMap(heap, now, basic, h);
    assert (map k | k in HttpBearer() :: HttpBearer()[k].json) == DEFAULT_SCHEMES["HTTPBearer"].fields;
  }

  function DefaultCells(bearer: Node, basic: Node): Cells {
    map["BearerAuth" := Ref(bearer), "HTTPBearer" := Ref(basic)]
  }

  lemma DefaultsKnown(heap: Heap, one: Heap, now: Heap, bearer: Node, basic: Node, h: nat)
    requires Closed(heap) && bearer !in heap && bearer.height == 0 < h && one == heap[bearer := Bearer(Scalar(Str(HINT)))]
    requires basic !in one && basic.height == 0 && now == one[basic := HttpBearer()]
    ensures KnownAll(now, DefaultCells(bearer, basic), h, DEFAULT_SCHEMES, {bearer, basic})
  {
    BearerKnown(heap, one, bearer, h);
    BasicKnown(one, now, basic, h);
    var b, w := DEFAULT_SCHEMES["BearerAuth"], DEFAULT_SCHEMES["HTTPBearer"];
    Carry(one, now, basic, Ref(bearer), h, b, {bearer});
    OneEntry(now, "BearerAuth", Ref(bearer), h);
    AddEntry(now, map["BearerAuth" := Ref(bearer)], h, map["BearerAuth" := b], {bearer}, "HTTPBearer", Ref(basic), w, {basic});
    assert map["BearerAuth" := Ref(bearer)]["HTTPBearer" := Ref(basic)] == DefaultCells(bearer, basic);
    assert map["BearerAuth" := b]["HTTPBearer" := w] == DEFAULT_SCHEMES;
    assert {bearer} + {basic} == {bearer, basic};
  }

  lemma DefaultsAdded(heap: Heap, one: Heap, now: Heap, bearer: Node, basic: Node, parts: seq<Cells>, h: nat)
    requires Apart(heap, parts, h) && |parts| >= 3 && parts[0] == map[] && parts[2] == map[]
    requires bearer !in heap && bearer.height == 0 < h && one == heap[bearer := Bearer(Scalar(Str(HINT)))]
    requires basic !in one && basic.height == 0 && now == one[basic := HttpBearer()]
    ensures Apart(now, parts[2 := DefaultCells(bearer, basic)], h)
    ensures Views(now, parts[2 := DefaultCells(bearer, basic)], h) == Views(heap, parts, h)[2 := DEFAULT_SCHEMES]
  {
    hide Below, Unshared, View, Reach;
    DefaultsKnown(heap, one, now, bearer, basic, h);
    TextsKnown(now, map[], h);
    Exchange(heap, now, parts, 2, DefaultCells(bearer, basic), 0, map[], h);
    var after := parts[2 := DefaultCells(bearer, basic)];
    assert after[0 := map[]] == after;
    var v := Views(heap, parts, h);
    assert v[0] == map[] && v[2 := DEFAULT_SCHEMES][0 := map[]] == v[2 := DEFAULT_SCHEMES];
  }

  /** The schemes the document starts with. */
  method DefaultSchemes(ghost docs: set<Node>, ghost parts: seq<Cells>, ghost h: nat) returns (schemes: Node, ghost all: set<Node>)
    requires Apart(Snapshot(docs), parts, h) && |parts| >= 3 && parts[0] == map[] && parts[2] == map[] && h >= 1
    ensures docs <= all && fresh(all - docs) && fresh(schemes) && schemes !in all && schemes.height == h
    ensures Apart(Snapshot(all), parts[2 := schemes.fields], h)
    ensures Views(Snapshot(all), parts[2 := schemes.fields], h) == Views(Snapshot(docs), parts, h)[2 := DEFAULT_SCHEMES]
    ensures forall n :: n in docs ==> n.fields == old(n.fields)
  {
    hide Apart, Views, Bearer, HttpBearer, DefaultCells;
    ghost var heap := Snapshot(docs);
    var bearer := new Node(0);
    bearer.fields := Bearer(Scalar(Str(HINT)));
    var basic := new Node(0);
    basic.fields := HttpBearer();
    schemes := new Node(h);
    schemes.fields := DefaultCells(bearer, basic);
    all := docs + {bearer, basic};
    ghost var one := heap[bearer := bearer.fields];
    assert Snapshot(all) == one[basic := basic.fields];
    DefaultsAdded(heap, one, Snapshot(all), bearer, basic, parts, h);
  }

  // ----- three documents in turn -----

  /** The views after auth and metadata, and after upload too. */
  function TwoPoured(v: seq<Fields>): (r: seq<Fields>)
    requires |v| == 13
    ensures |r| == 13
  {
    DocumentPoured(DocumentPoured(v, 3, false), 6, true)
  }

  function AllPoured(v: seq<Fields>): (r: seq<Fields>)
    requires |v| == 13
    ensures |r| == 13
  {
    DocumentPoured(TwoPoured(v), 9, true)
  }

  function MergedViews(i: Json, auth: Fetched, meta: Fetched, upload: Fetched): seq<Fields> {
    var v := StartViews(i, Doc(auth), Doc(meta), Doc(upload))[2 := DEFAULT_SCHEMES];
    AllPoured(v)
  }

  lemma PouredAt(v: seq<Fields>, at: nat, swagger: bool)
    requires 3 <= at && at + 2 < |v|
    ensures var w := DocumentPoured(v, at, swagger);
            && |w| == |v|
            && w[0] == MergedPaths(v[0], v[at]) && w[1] == FirstWins(v[1], v[at + 1])
            && w[2] == FirstWins(v[2], if swagger then AsBearers(v[at + 2]) else v[at + 2])
            && forall i :: at + 2 < i < |v| ==> w[i] == v[i]
  {
    hide MergedPaths, FirstWins, AsBearers;
  }

  /** After the three documents the sections are the merged ones. */
  lemma MergedSections(i: Json, auth: Fetched, meta: Fetched, upload: Fetched)
    ensures var v := MergedViews(i, auth, meta, upload);
            && |v| == 13
            && v[0] == AllPaths(auth, meta, upload)
            && v[1] == AllSchemas(auth, meta, upload)
            && v[2] == AllSchemes(auth, meta, upload)
            && v[12] == map["info" := i]
  {
    hide MergedPaths, FirstWins, AsBearers, DocumentPoured, PathsOf, DefinitionsOf, SecurityOf, ComponentOf;
    var v0 := StartViews(i, Doc(auth), Doc(meta), Doc(upload))[2 := DEFAULT_SCHEMES];
    PouredAt(v0, 3, false);
    var v1 := DocumentPoured(v0, 3, false);
    PouredAt(v1, 6, true);
    PouredAt(DocumentPoured(v1, 6, true), 9, true);
  }

  lemma SameFrom(parts: seq<Cells>, after: seq<Cells>, from: nat, at: nat)
    requires |parts| == |after| && from <= at && at + 3 <= |parts| && after[from..] == parts[from..]
    ensures after[at..at + 3] == parts[at..at + 3] && after[at] == parts[at]
  {
    forall i | at <= i < at + 3 ensures after[i] == parts[i] {
      assert after[from..][i - from] == parts[from..][i - from];
    }
  }

  lemma SameTail(a: seq<Cells>, b: seq<Cells>, c: seq<Cells>, x: nat, y: nat)
    requires |a| == |b| == |c| && x <= y <= |a| && b[x..] == a[x..] && c[y..] == b[y..]
    ensures c[y..] == a[y..]
  {
    forall i | y <= i < |a| ensures b[i] == a[i] {
      assert b[x..][i - x] == a[x..][i - x];
    }
  }

  /** Where the documents' sections stand among the parts. */
  lemma PartsAt(heap: Heap, info: Cell, auth: Option<Node>, meta: Option<Node>, upload: Option<Node>, parts: seq<Cells>)
    requires |parts| == 13 && parts[3..] == Parts(heap, info, auth, meta, upload)[3..]
    ensures parts[3..6] == SectionsOf(heap, auth, false) && parts[3] == SectionsOf(heap, auth, false)[0]
    ensures parts[6..9] == SectionsOf(heap, meta, true) && parts[6] == SectionsOf(heap, meta, true)[0]
    ensures parts[9..12] == SectionsOf(heap, upload, true) && parts[9] == SectionsOf(heap, upload, true)[0]
    ensures parts[12] == map["info" := info]
  {
    hide SectionsOf;
    var all := Parts(heap, info, auth, meta, upload);
    forall i | 3 <= i < 13 ensures parts[i] == all[i] {
      assert parts[3..][i - 3] == all[3..][i - 3];
    }
  }

  /** The sections before anything is poured into them. */
  method EmptySections(ghost docs: set<Node>, ghost given: seq<Cells>, ghost h: nat, ghost level: nat)
    returns (paths: Node, schemas: Node, schemes: Node, ghost all: set<Node>, ghost parts: seq<Cells>)
    requires Apart(Snapshot(docs), given, h) && |given| == 13 && given[0] == map[] && given[1] == map[] && given[2] == map[] && h >= 1
    ensures docs <= all && fresh(all - docs) && fresh({paths, schemas, schemes})
    ensures paths.height == schemas.height == schemes.height == h && paths.fields == map[]
    ensures Ready(Snapshot(all), paths, schemas, schemes, parts, h, level) && parts[3..] == given[3..]
    ensures Views(Snapshot(all), parts, h) == Views(Snapshot(docs), given, h)[2 := DEFAULT_SCHEMES]
    ensures forall n :: n in docs ==> n.fields == old(n.fields)
  {
    hide Apart, Views;
    schemes, all := DefaultSchemes(docs, given, h);
    paths := new Node(h);
    schemas := new Node(h);
    parts := given[2 := schemes.fields];
  }

  /** Fresh sections with the first document poured into them. */
  method MergeFirst(ghost docs: set<Node>, auth: Option<Node>, ghost given: seq<Cells>, ghost h: nat, ghost level: nat)
    returns (paths: Node, schemas: Node, schemes: Node, ghost all: set<Node>, ghost parts: seq<Cells>)
    requires Apart(Snapshot(docs), given, h) && |given| == 13 && given[0] == map[] && given[1] == map[] && given[2] == map[] && h >= 1
    requires Whole(Snapshot(docs), auth, h) && given[3..6] == SectionsOf(Snapshot(docs), auth, false) && Level(given[3], level)
    modifies docs
    ensures docs <= all && fresh(all - docs) && fresh({paths, schemas, schemes})
    ensures paths.height == schemas.height == schemes.height == h
    ensures Ready(Snapshot(all), paths, schemas, schemes, parts, h, level) && parts[6..] == given[6..]
    ensures Views(Snapshot(all), parts, h) == DocumentPoured(Views(old(Snapshot(docs)), given, h)[2 := DEFAULT_SCHEMES], 3, false)
    ensures ItemMaps(paths.fields) <= ReachOf(old(Snapshot(docs)), auth, h)
    ensures forall n :: n in docs ==> n.fields == old(n.fields)
  {
    hide Apart, Closed, Views, View, SectionsOf, Whole, ReachOf, Reach, DocumentPoured, Level;
    ghost var heap := Snapshot(docs);
    ghost var none, first;
    paths, schemas, schemes, none, first := EmptySections(docs, given, h, level);
    SameFrom(given, first, 3, 3);
    assert forall n :: n in docs ==> n.fields == heap[n];
    all, parts := MergeNext(heap, none, paths, schemas, schemes, auth, false, first, 3, h, level, {});
    SameTail(given, first, parts, 3, 6);
  }

  /** mergePaths and its siblings over the three documents, into fresh sections. */
  method MergeSections(ghost docs: set<Node>, info: Cell, auth: Option<Node>, meta: Option<Node>, upload: Option<Node>, ghost h: nat, ghost level: nat)
    returns (paths: Node, schemas: Node, schemes: Node, ghost all: set<Node>, ghost parts: seq<Cells>)
    requires Decoded(Snapshot(docs), info, auth, meta, upload, h, level) && h >= 1
    modifies docs
    ensures docs <= all && fresh(all - docs) && fresh({paths, schemas, schemes})
    ensures paths.height == schemas.height == schemes.height == h
    ensures Ready(Snapshot(all), paths, schemas, schemes, parts, h, level) && parts[12] == map["info" := info]
    ensures var heap := old(Snapshot(docs));
            Views(Snapshot(all), parts, h) ==
            MergedViews(View(heap, info, h), FetchedAs(heap, auth, h), FetchedAs(heap, meta, h), FetchedAs(heap, upload, h))
  {
    hide Apart, Closed, Views, View, Below, Unshared, FieldsOf, SectionsOf, Whole, ReachOf, Reach, StartViews, DocumentPoured, Level, FetchedAs;
    ghost var heap := Snapshot(docs);
    ghost var given := Parts(heap, info, auth, meta, upload);
    PartsApart(heap, info, auth, meta, upload, h, level);
    PartsAt(heap, info, auth, meta, upload, given);
    ghost var one, two, second, third;
    paths, schemas, schemes, one, second := MergeFirst(docs, auth, given, h, level);
    SameFrom(given, second, 6, 6);
    assert forall n :: n in docs ==> n.fields == heap[n];
    two, third := MergeNext(heap, one, paths, schemas, schemes, meta, true, second, 6, h, level, ReachOf(heap, auth, h));
    SameTail(given, second, third, 6, 9);
    SameFrom(given, third, 9, 9);
    all, parts := MergeNext(heap, two, paths, schemas, schemes, upload, true, third, 9, h, level,
                            ReachOf(heap, auth, h) + ReachOf(heap, meta, h));
    SameTail(given, third, parts, 9, 12);
    assert parts[12] == parts[12..][0] == given[12..][0];
    assert all - docs <= (all - two) + (two - one) + (one - docs);
  }

  /**
   HandleMerged.  The documents' maps are taken over by reference and changed in place, and
   still no map ends up in two places, so the rewriting reaches every reference once: what is
   served stands for the rewritten merge of what the documents stood for.
   */
  method HandleMerged(ghost docs: set<Node>, info: Cell, auth: Option<Node>, meta: Option<Node>, upload: Option<Node>, ghost h: nat, ghost level: nat)
    returns (merged: Node, ghost all: set<Node>)
    requires Decoded(Snapshot(docs), info, auth, meta, upload, h, level) && h >= 1
    modifies docs
    ensures docs <= all && fresh(all - docs)
    ensures Closed(Snapshot(all)) && Below(Snapshot(all), Ref(merged), h + 3)
    ensures var heap := old(Snapshot(docs));
            View(Snapshot(all), Ref(merged), h + 3) ==
            Rewritten(Merged(View(heap, info, h), FetchedAs(heap, auth, h), FetchedAs(heap, meta, h), FetchedAs(heap, upload, h)))
    ensures var heap := old(Snapshot(docs));
            ServedFrom(View(Snapshot(all), Ref(merged), h + 3), View(heap, info, h), FetchedAs(heap, auth, h), FetchedAs(heap, meta, h),
                       FetchedAs(heap, upload, h))
  {
    hide ServedFrom, Apart, Views, MergedViews, FrameOk, Surrounded, Visited, Hidden, Closed, Below, View, Unshared, AllPaths, AllSchemas, AllSchemes,
         Document, Level, FetchedAs, Rewritten, ReachOf, SectionsOf;
    ghost var heap := Snapshot(docs);
    var paths, schemas, schemes;
    ghost var most, parts, f;
    paths, schemas, schemes, most, parts := MergeSections(docs, info, auth, meta, upload, h, level);
    merged, f := Surround(most, info, paths, schemas, schemes, h);
    all := most + MapsOf(f);
    assert fresh(all - docs) by {
      assert all - docs <= (most - docs) + {paths, schemas, schemes} + {f.components, f.server, f.root};
    }
    Finished(Snapshot(most), Snapshot(all), f, parts, info, h);
    MergedSections(View(heap, info, h), FetchedAs(heap, auth, h), FetchedAs(heap, meta, h), FetchedAs(heap, upload, h));
    assert map["info" := View(heap, info, h)]["info"] == map["info" := View(Snapshot(most), info, h)]["info"];
    RewriteDocument(all, Ref(merged), h + 3);
    MergedServes(View(heap, info, h), FetchedAs(heap, auth, h), FetchedAs(heap, meta, h), FetchedAs(heap, upload, h));
  }
}
