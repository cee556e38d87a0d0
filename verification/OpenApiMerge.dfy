/**
 The merging loops of the documents handler on map objects: one decoded document is poured
 into the sections of the merged one, by reference and in place.

 Each loop is proved twice over.  On the objects it says what the destination holds afterwards
 and which maps changed: the items of shared paths, and a fresh map for every converted
 security scheme.  On the parts it says that they still share nothing and that the destination
 part stands for the merge of the two trees, while the source part is used up.  The second
 half of the module finds a document's three sections in its maps and shows that they stand
 for what the merge takes from the document as a tree.
 */
module OpenApiMerge {
  import opened Common
  import opened OpenApi
  import opened OpenApiHeap
  import opened OpenApiParts

  // ----- paths and schemas -----

  function Only(f: Cells, ks: set<string>): Cells {
    map k | k in f && k in ks :: f[k]
  }

  /** The loop the plain merges share: what is there already stays. */
  method AddMissing(dst: Node, src: Cells)
    modifies dst
    ensures dst.fields == FirstWins(old(dst.fields), src)
  {
    var left := src.Keys;
    while left != {}
      invariant left <= src.Keys
      invariant dst.fields == FirstWins(old(dst.fields), Only(src, src.Keys - left))
      decreases left
    {
      var k :| k in left;
      if k !in dst.fields {
        dst.fields := dst.fields[k := src[k]];
      }
      left := left - {k};
    }
    assert Only(src, src.Keys - left) == src;
  }

  /** One path: new ones are added, the methods of a shared one go into the map that is there. */
  method MergePath(ghost all: set<Node>, dst: Node, src: Cells, k: string, ghost heap: Heap, ghost a: Cells, ghost before: Cells)
    requires dst !in all && heap.Keys == all && OwnItems(all, a, src) && k in src
    requires k !in before && forall l :: l in before ==> l in src && before[l] == src[l]
    requires dst.fields == FirstWins(a, before) && Joined(heap, Snapshot(all), a, before)
    modifies dst, all
    ensures dst.fields == FirstWins(a, before[k := src[k]]) && Joined(heap, Snapshot(all), a, before[k := src[k]])
  {
    hide Joined;
    ghost var was := Snapshot(all);
    if k !in dst.fields {
      dst.fields := dst.fields[k := src[k]];
    } else if dst.fields[k].Ref? && src[k].Ref? {
      var item := dst.fields[k].node;
      assert item == a[k].node && src[k].node in was;
      AddMissing(item, src[k].node.fields);
      assert Snapshot(all) == was[item := FirstWins(was[item], was[src[k].node])];
    }
    JoinedMore(heap, was, Snapshot(all), a, before, src, k);
  }

  /** mergePaths. */
  method MergePaths(ghost all: set<Node>, dst: Node, src: Cells)
    requires dst !in all && OwnItems(all, dst.fields, src)
    modifies dst, all
    ensures dst.fields == FirstWins(old(dst.fields), src)
    ensures Joined(old(Snapshot(all)), Snapshot(all), old(dst.fields), src)
  {
    hide Joined, OwnItems;
    ghost var heap := Snapshot(all);
    ghost var a := dst.fields;
    var left := src.Keys;
    assert Only(src, src.Keys - left) == map[] && heap.Keys == all;
    NothingJoined(heap, a);
    while left != {}
      invariant left <= src.Keys
      invariant dst.fields == FirstWins(a, Only(src, src.Keys - left))
      invariant Joined(heap, Snapshot(all), a, Only(src, src.Keys - left))
      decreases left
    {
      var k :| k in left;
      MergePath(all, dst, src, k, heap, a, Only(src, src.Keys - left));
      assert Only(src, src.Keys - (left - {k})) == Only(src, src.Keys - left)[k := src[k]];
      left := left - {k};
    }
    assert Only(src, src.Keys - left) == src;
  }

  /** mergePaths on a document's paths, as the parts see it. */
  method PourPaths(ghost all: set<Node>, dst: Node, src: Cells, ghost parts: seq<Cells>, ghost i: nat, ghost j: nat, ghost h: nat, ghost level: nat)
    requires dst !in all && Apart(Snapshot(all), parts, h) && i < |parts| && j < |parts| && i != j
    requires parts[i] == dst.fields && parts[j] == src && Level(dst.fields, level) && Level(src, level)
    modifies dst, all
    ensures Apart(Snapshot(all), parts[i := dst.fields][j := map[]], h) && Level(dst.fields, level)
    ensures var v := Views(old(Snapshot(all)), parts, h);
            Views(Snapshot(all), parts[i := dst.fields][j := map[]], h) == v[i := MergedPaths(v[i], v[j])][j := map[]]
    ensures ItemMaps(dst.fields) <= old(ItemMaps(dst.fields)) + ItemMaps(src)
    ensures forall n :: n in all && n !in old(ItemMaps(dst.fields)) ==> n.fields == old(n.fields)
  {
    hide Apart, Closed, Views, Joined, OwnItems, MergedPaths;
    ghost var heap := Snapshot(all);
    assert heap.Keys == all;
    ItemsAreOwn(heap, parts, i, j, h);
    MergePaths(all, dst, src);
    Join(heap, Snapshot(all), parts, i, j, h, level);
    OthersStay(heap, Snapshot(all), parts[i], parts[j]);
    assert forall n :: n in all ==> n.fields == Snapshot(all)[n] && old(n.fields) == heap[n];
  }

  /** mergeSchemas, mergeDefinitionsToSchemas or mergeSecuritySchemes. */
  method PourMissing(ghost all: set<Node>, dst: Node, src: Cells, ghost parts: seq<Cells>, ghost i: nat, ghost j: nat, ghost h: nat)
    requires dst !in all && Apart(Snapshot(all), parts, h) && i < |parts| && j < |parts| && i != j
    requires parts[i] == dst.fields && parts[j] == src
    modifies dst
    ensures Apart(Snapshot(all), parts[i := dst.fields][j := map[]], h)
    ensures var v := Views(Snapshot(all), parts, h);
            Views(Snapshot(all), parts[i := dst.fields][j := map[]], h) == v[i := FirstWins(v[i], v[j])][j := map[]]
  {
    AddMissing(dst, src);
    Pour(Snapshot(all), parts, i, j, h);
  }

  // ----- security schemes -----

  predicate IsText(f: Cells, k: string, text: string) {
    k in f && f[k] == Scalar(Str(text))
  }

  function Bearer(description: Cell): Cells {
    map["type" := Scalar(Str("http")), "scheme" := Scalar(Str("bearer")), "bearerFormat" := Scalar(Str("JWT")), "description" := description]
  }

  function DescriptionIn(f: Cells): Cell {
    if "description" in f then f["description"] else Scalar(Null)
  }

  lemma Wrapped(heap: Heap, now: Heap, n: Node, bearer: Node, h: nat)
    requires Closed(heap) && n in heap && n.height < h && Unshared(heap, Ref(n), h)
    requires bearer !in heap && bearer.height == n.height && now == heap[bearer := Bearer(DescriptionIn(heap[n]))]
    requires IsText(heap[n], "type", "apiKey") && IsText(heap[n], "name", "Authorization")
    ensures Closed(now) && Below(now, Ref(bearer), h) && Unshared(now, Ref(bearer), h)
    ensures View(now, Ref(bearer), h) == AsBearer(View(heap, Ref(n), h))
    ensures Reach(now, Ref(bearer), h) * heap.Keys <= Reach(heap, Ref(n), h)
  {
    var d := DescriptionIn(heap[n]);
    MapParts(heap, n, h);
    assert Below(heap, d, n.height) && Unshared(heap, d, n.height);
    assert Reach(heap, d, n.height) <= ReachAll(heap, heap[n], n.height);
    StillAllClosed(heap, now, bearer);
    Untouched(heap, now, d, n.height);
    MapParts(now, bearer, h);
    BearerParts(now, d, n.height);
    assert ViewAll(heap, heap[n], n.height)["type"] == Str("apiKey") && ViewAll(heap, heap[n], n.height)["name"] == Str("Authorization");
  }

  function BearerStart(): Cells {
    map["type" := Scalar(Str("http")), "scheme" := Scalar(Str("bearer")), "bearerFormat" := Scalar(Str("JWT"))]
  }

  lemma BearerStartKnown(heap: Heap, h: nat)
    requires Closed(heap)
    ensures KnownAll(heap, BearerStart(), h, map["type" := Str("http"), "scheme" := Str("bearer"), "bearerFormat" := Str("JWT")], {})
  {
    hide KnownAll;
    var f := BearerStart();
    TextsKnown(heap, f, h);
    assert (map k | k in f :: f[k].json) == map["type" := Str("http"), "scheme" := Str("bearer"), "bearerFormat" := Str("JWT")];
  }

  lemma BearerParts(heap: Heap, d: Cell, h: nat)
    requires Closed(heap) && Below(heap, d, h) && Unshared(heap, d, h)
    ensures AllBelow(heap, Bearer(d), h) && UnsharedAll(heap, Bearer(d), h)
    ensures ReachAll(heap, Bearer(d), h) == Reach(heap, d, h)
    ensures ViewAll(heap, Bearer(d), h) ==
            map["type" := Str("http"), "scheme" := Str("bearer"), "bearerFormat" := Str("JWT"), "description" := View(heap, d, h)]
  {
    hide View, Reach, Unshared, Below, Closed;
    assert "type"[0] == 't' && "scheme"[0] == 's' && "bearerFormat"[0] == 'b' && "description"[0] == 'd';
    var views: Fields := map["type" := Str("http"), "scheme" := Str("bearer"), "bearerFormat" := Str("JWT")];
    BearerStartKnown(heap, h);
    AddEntry(heap, BearerStart(), h, views, {}, "description", d, View(heap, d, h), Reach(heap, d, h));
    assert Bearer(d) == BearerStart()["description" := d];
  }

  /** mergeSecurityDefinitions on one entry: an Authorization api key becomes a fresh bearer scheme, with the same description. */
  method Scheme(ghost all: set<Node>, c: Cell, ghost h: nat) returns (r: Cell, ghost now: set<Node>)
    requires Closed(Snapshot(all)) && Below(Snapshot(all), c, h) && Unshared(Snapshot(all), c, h)
    ensures all <= now && fresh(now - all)
    ensures Closed(Snapshot(now)) && Below(Snapshot(now), r, h) && Unshared(Snapshot(now), r, h)
    ensures View(Snapshot(now), r, h) == AsBearer(View(Snapshot(all), c, h))
    ensures Reach(Snapshot(now), r, h) * all <= Reach(Snapshot(all), c, h)
  {
    assert c.Ref? ==> Snapshot(all)[c.node] == c.node.fields;
    assert !(c.Ref? && IsText(c.node.fields, "type", "apiKey") && IsText(c.node.fields, "name", "Authorization")) ==>
        AsBearer(View(Snapshot(all), c, h)) == View(Snapshot(all), c, h);
    hide Closed, Unshared, View, Reach, AsBearer, Bearer;
    r, now := c, all;
    if c.Ref? && IsText(c.node.fields, "type", "apiKey") && IsText(c.node.fields, "name", "Authorization") {
      var bearer := new Node(c.node.height);
      bearer.fields := Bearer(DescriptionIn(c.node.fields));
      r, now := Ref(bearer), all + {bearer};
      Wrapped(Snapshot(all), Snapshot(now), c.node, bearer, h);
    }
  }

  /** The views after one security definition was merged. */
  function SchemeStep(v: seq<Fields>, i: nat, j: nat, k: string): seq<Fields>
    requires i < |v| && j < |v| && i != j && k in v[j]
  {
    v[i := FirstWins(v[i], map[k := AsBearer(v[j][k])])][j := v[j] - {k}]
  }

  lemma StepIsAnUpdate(v: seq<Fields>, i: nat, j: nat, k: string)
    requires i < |v| && j < |v| && i != j && k in v[j]
    ensures k in v[i] ==> SchemeStep(v, i, j, k) == v[j := v[j] - {k}]
    ensures k !in v[i] ==> SchemeStep(v, i, j, k) == v[i := v[i][k := AsBearer(v[j][k])]][j := v[j] - {k}]
  {
    var one := map[k := AsBearer(v[j][k])];
    if k in v[i] {
      assert FirstWins(v[i], one) == v[i];
      assert v[i := v[i]] == v;
    } else {
      assert FirstWins(v[i], one) == v[i][k := AsBearer(v[j][k])];
    }
  }

  /** One security definition, if the name is not taken. */
  method AddScheme(ghost all: set<Node>, dst: Node, k: string, c: Cell, ghost parts: seq<Cells>, ghost i: nat, ghost j: nat, ghost h: nat)
    returns (ghost now: set<Node>)
    requires dst !in all && Apart(Snapshot(all), parts, h) && i < |parts| && j < |parts| && i != j
    requires parts[i] == dst.fields && k in parts[j] && parts[j][k] == c
    modifies dst
    ensures all <= now && fresh(now - all) && dst !in now
    ensures Apart(Snapshot(now), parts[i := dst.fields][j := parts[j] - {k}], h)
    ensures Views(Snapshot(now), parts[i := dst.fields][j := parts[j] - {k}], h) ==
            SchemeStep(Views(old(Snapshot(all)), parts, h), i, j, k)
  {
    hide Apart, Views, Closed, Below, Unshared, View, Reach, SchemeStep;
    ghost var heap := Snapshot(all);
    PartEntries(heap, parts, i, h);
    PartEntries(heap, parts, j, h);
    StepIsAnUpdate(Views(heap, parts, h), i, j, k);
    now := all;
    if k in dst.fields {
      Drop(heap, parts, j, k, h);
      assert parts[i := dst.fields] == parts;
      return;
    }
    var r: Cell;
    r, now := Scheme(all, c, h);
    ghost var wider := Snapshot(now);
    assert forall n :: n in heap ==> wider[n] == heap[n];
    Move(heap, wider, parts, i, j, k, r, h);
    dst.fields := dst.fields[k := r];
    assert Snapshot(now) == wider;
  }

  /** The views while the schemes in `left` are still to come. */
  function SchemesDone(v: seq<Fields>, i: nat, j: nat, left: set<string>): seq<Fields>
    requires i < |v| && j < |v| && i != j
  {
    v[i := FirstWins(v[i], AsBearers(v[j] - left))][j := v[j] - (v[j].Keys - left)]
  }

  lemma NoSchemeYet(v: seq<Fields>, i: nat, j: nat)
    requires i < |v| && j < |v| && i != j
    ensures SchemesDone(v, i, j, v[j].Keys) == v
  {
    assert v[j] - v[j].Keys == map[] && AsBearers(map[]) == map[];
    assert FirstWins(v[i], AsBearers(v[j] - v[j].Keys)) == v[i];
    assert v[j] - (v[j].Keys - v[j].Keys) == v[j];
  }

  lemma OneMoreScheme(v: seq<Fields>, i: nat, j: nat, left: set<string>, k: string)
    requires i < |v| && j < |v| && i != j && k in v[j] && k !in left && left <= v[j].Keys
    ensures var w := SchemesDone(v, i, j, left + {k});
            && k in w[j] && w[j][k] == v[j][k]
            && SchemeStep(w, i, j, k) == SchemesDone(v, i, j, left)
  {
    hide AsBearer;
    var w := SchemesDone(v, i, j, left + {k});
    assert FirstWins(w[i], map[k := AsBearer(v[j][k])]) == FirstWins(v[i], AsBearers(v[j] - left));
    assert w[j] - {k} == v[j] - (v[j].Keys - left);
  }

  /** mergeSecurityDefinitions. */
  method AddSchemes(ghost all: set<Node>, dst: Node, src: Cells, ghost parts: seq<Cells>, ghost i: nat, ghost j: nat, ghost h: nat)
    returns (ghost now: set<Node>)
    requires dst !in all && Apart(Snapshot(all), parts, h) && i < |parts| && j < |parts| && i != j
    requires parts[i] == dst.fields && parts[j] == src
    modifies dst
    ensures all <= now && fresh(now - all) && dst !in now
    ensures Apart(Snapshot(now), parts[i := dst.fields][j := map[]], h)
    ensures var v := Views(old(Snapshot(all)), parts, h);
            Views(Snapshot(now), parts[i := dst.fields][j := map[]], h) == v[i := FirstWins(v[i], AsBearers(v[j]))][j := map[]]
  {
    hide Apart, Closed, Below, Unshared, View, Reach, Views, SchemeStep, AsBearers, AsBearer;
    ghost var v := Views(Snapshot(all), parts, h);
    ghost var rest := src;
    var left := src.Keys;
    now := all;
    assert parts[i := dst.fields][j := rest] == parts;
    PartEntries(Snapshot(all), parts, j, h);
    NoSchemeYet(v, i, j);
    while left != {}
      invariant left == rest.Keys && rest == Only(src, left)
      invariant all <= now && fresh(now - all) && dst !in now
      invariant Apart(Snapshot(now), parts[i := dst.fields][j := rest], h)
      invariant Views(Snapshot(now), parts[i := dst.fields][j := rest], h) ==
                SchemesDone(v, i, j, left)
      decreases left
    {
      var k :| k in left;
      ghost var here := parts[i := dst.fields][j := rest];
      now := AddScheme(now, dst, k, src[k], here, i, j, h);
      rest := rest - {k};
      assert left == (left - {k}) + {k};
      left := left - {k};
      assert here[i := dst.fields][j := rest] == parts[i := dst.fields][j := rest];
      OneMoreScheme(v, i, j, left, k);
    }
    assert rest == map[] && v[j] - {} == v[j] && v[j] - v[j].Keys == map[];
  }

  // ----- what a document holds -----

  /** The map under a key, if there is one. */
  function At(n: Option<Node>, k: string): Option<Node>
    reads if n.Some? then {n.value} else {}
  {
    if n.Some? && k in n.value.fields && n.value.fields[k].Ref? then Some(n.value.fields[k].node) else None
  }

  function Entries(n: Option<Node>): Cells
    reads if n.Some? then {n.value} else {}
  {
    if n.Some? then n.value.fields else map[]
  }

  ghost function AtIn(heap: Heap, n: Option<Node>, k: string): Option<Node> {
    if n.Some? && n.value in heap && k in heap[n.value] && heap[n.value][k].Ref? then Some(heap[n.value][k].node) else None
  }

  ghost function EntriesIn(heap: Heap, n: Option<Node>): Cells {
    if n.Some? && n.value in heap then heap[n.value] else map[]
  }

  /** A document of its own: a known map, nothing in it twice. */
  ghost predicate Whole(heap: Heap, n: Option<Node>, h: nat) {
    Closed(heap) && (n.Some? ==> n.value in heap && n.value.height < h && Unshared(heap, Ref(n.value), h))
  }

  ghost function ReachOf(heap: Heap, n: Option<Node>, h: nat): (r: set<Node>)
    requires Whole(heap, n, h)
    ensures r <= heap.Keys
  {
    if n.Some? then Reach(heap, Ref(n.value), h) else {}
  }

  ghost function FieldsOf(heap: Heap, n: Option<Node>, h: nat): Fields
    requires Whole(heap, n, h)
  {
    if n.Some? then View(heap, Ref(n.value), h).fields else map[]
  }

  /** The entries of a map that is held once. */
  lemma EntriesOf(heap: Heap, n: Option<Node>, h: nat)
    requires Whole(heap, n, h)
    ensures AllBelow(heap, EntriesIn(heap, n), h) && UnsharedAll(heap, EntriesIn(heap, n), h)
    ensures ViewAll(heap, EntriesIn(heap, n), h) == FieldsOf(heap, n, h)
    ensures ReachAll(heap, EntriesIn(heap, n), h) <= ReachOf(heap, n, h)
    ensures n.Some? ==> n.value in ReachOf(heap, n, h) && n.value !in ReachAll(heap, EntriesIn(heap, n), h)
  {
    if n.Some? {
      MapParts(heap, n.value, h);
      HigherBound(heap, heap[n.value], n.value.height, h);
      forall x | x in ReachAll(heap, heap[n.value], n.value.height) ensures x.height < n.value.height {
        var k :| k in heap[n.value] && x in Reach(heap, heap[n.value][k], n.value.height);
        WithinReach(heap, heap[n.value][k], n.value.height);
      }
    }
  }

  /** The map under a key of a map that is held once is held once, inside it. */
  lemma Under(heap: Heap, n: Option<Node>, k: string, h: nat)
    requires Whole(heap, n, h)
    ensures Whole(heap, AtIn(heap, n, k), h) && AllBelow(heap, EntriesIn(heap, n), h)
    ensures ReachOf(heap, AtIn(heap, n, k), h) <= ReachAll(heap, EntriesIn(heap, n), h)
    ensures FieldsOf(heap, AtIn(heap, n, k), h) ==
            if ObjectAt(FieldsOf(heap, n, h), k).Some? then ObjectAt(FieldsOf(heap, n, h), k).value else map[]
  {
    EntriesOf(heap, n, h);
    var f := EntriesIn(heap, n);
    if k in f {
      PartOfAll(heap, f, k, h);
      assert Below(heap, f[k], h) && Unshared(heap, f[k], h);
      assert ViewAll(heap, f, h)[k] == View(heap, f[k], h);
    }
  }

  lemma UnderTwo(heap: Heap, n: Option<Node>, k: string, l: string, h: nat)
    requires Whole(heap, n, h) && k != l
    ensures Whole(heap, AtIn(heap, n, k), h) && Whole(heap, AtIn(heap, n, l), h)
    ensures ReachOf(heap, AtIn(heap, n, k), h) !! ReachOf(heap, AtIn(heap, n, l), h)
  {
    Under(heap, n, k, h);
    Under(heap, n, l, h);
    EntriesOf(heap, n, h);
    var f := EntriesIn(heap, n);
    assert k in f && l in f ==> Reach(heap, f[k], h) !! Reach(heap, f[l], h);
  }

  /** Where a document keeps its schemas: under "components", or a Swagger 2.0 one under itself. */
  ghost function Home(heap: Heap, doc: Option<Node>, swagger: bool): Option<Node> {
    if swagger then doc else AtIn(heap, doc, "components")
  }

  function SchemasKey(swagger: bool): string {
    if swagger then "definitions" else "schemas"
  }

  function SchemesKey(swagger: bool): string {
    if swagger then "securityDefinitions" else "securitySchemes"
  }

  /** The entries of a document's three sections. */
  ghost function SectionsOf(heap: Heap, doc: Option<Node>, swagger: bool): (r: seq<Cells>)
    ensures |r| == 3
  {
    [EntriesIn(heap, AtIn(heap, doc, "paths")),
     EntriesIn(heap, AtIn(heap, Home(heap, doc, swagger), SchemasKey(swagger))),
     EntriesIn(heap, AtIn(heap, Home(heap, doc, swagger), SchemesKey(swagger)))]
  }

  /** What the merge takes from a document. */
  function Taken(doc: Fields, swagger: bool): seq<Fields> {
    if swagger then [PathsOf(doc), DefinitionsOf(doc), SecurityOf(doc)]
    else [PathsOf(doc), ComponentOf(doc, "schemas"), ComponentOf(doc, "securitySchemes")]
  }

  /** The sections of a document share nothing, lie in it, and stand for what the merge takes. */
  ghost predicate SectionsOk(heap: Heap, doc: Option<Node>, swagger: bool, h: nat) {
    && Whole(heap, doc, h)
    && Apart(heap, SectionsOf(heap, doc, swagger), h)
    && (forall i :: 0 <= i < 3 ==> ReachAll(heap, SectionsOf(heap, doc, swagger)[i], h) <= ReachOf(heap, doc, h))
    && Views(heap, SectionsOf(heap, doc, swagger), h) == Taken(FieldsOf(heap, doc, h), swagger)
  }

  /** One section of a document. */
  lemma SectionUnder(heap: Heap, n: Option<Node>, k: string, h: nat)
    requires Whole(heap, n, h)
    ensures Whole(heap, AtIn(heap, n, k), h)
    ensures var f := EntriesIn(heap, AtIn(heap, n, k));
            && AllBelow(heap, f, h) && UnsharedAll(heap, f, h)
            && ReachAll(heap, f, h) <= ReachOf(heap, AtIn(heap, n, k), h)
            && ViewAll(heap, f, h) ==
               if ObjectAt(FieldsOf(heap, n, h), k).Some? then ObjectAt(FieldsOf(heap, n, h), k).value else map[]
    ensures ReachOf(heap, AtIn(heap, n, k), h) <= ReachOf(heap, n, h)
  {
    Under(heap, n, k, h);
    EntriesOf(heap, n, h);
    EntriesOf(heap, AtIn(heap, n, k), h);
  }

  lemma ThreeApart(heap: Heap, a: Cells, b: Cells, c: Cells, h: nat)
    requires Closed(heap) && AllBelow(heap, a, h) && AllBelow(heap, b, h) && AllBelow(heap, c, h)
    requires UnsharedAll(heap, a, h) && UnsharedAll(heap, b, h) && UnsharedAll(heap, c, h)
    requires ReachAll(heap, a, h) !! ReachAll(heap, b, h) && ReachAll(heap, a, h) !! ReachAll(heap, c, h)
    requires ReachAll(heap, b, h) !! ReachAll(heap, c, h)
    ensures Apart(heap, [a, b, c], h)
    ensures Views(heap, [a, b, c], h) == [ViewAll(heap, a, h), ViewAll(heap, b, h), ViewAll(heap, c, h)]
  {
  }

  lemma SwaggerSections(heap: Heap, doc: Option<Node>, h: nat)
    requires Whole(heap, doc, h)
    ensures SectionsOk(heap, doc, true, h)
  {
    assert "paths"[0] == 'p' && "definitions"[0] == 'd' && "securityDefinitions"[0] == 's';
    SectionUnder(heap, doc, "paths", h);
    SectionUnder(heap, doc, "definitions", h);
    SectionUnder(heap, doc, "securityDefinitions", h);
    UnderTwo(heap, doc, "paths", "definitions", h);
    UnderTwo(heap, doc, "paths", "securityDefinitions", h);
    UnderTwo(heap, doc, "definitions", "securityDefinitions", h);
    var parts := SectionsOf(heap, doc, true);
    ThreeApart(heap, parts[0], parts[1], parts[2], h);
  }

  lemma ComponentSections(heap: Heap, doc: Option<Node>, h: nat)
    requires Whole(heap, doc, h)
    ensures SectionsOk(heap, doc, false, h)
  {
    hide Closed, Below, Unshared, View, Reach;
    assert "paths"[0] == 'p' && "components"[0] == 'c' && |"schemas"| != |"securitySchemes"|;
    SectionUnder(heap, doc, "paths", h);
    SectionUnder(heap, doc, "components", h);
    UnderTwo(heap, doc, "paths", "components", h);
    var home := AtIn(heap, doc, "components");
    SectionUnder(heap, home, "schemas", h);
    SectionUnder(heap, home, "securitySchemes", h);
    UnderTwo(heap, home, "schemas", "securitySchemes", h);
    ComponentFields(heap, doc, h);
    var parts := SectionsOf(heap, doc, false);
    ThreeApart(heap, parts[0], parts[1], parts[2], h);
  }

  lemma ComponentFields(heap: Heap, doc: Option<Node>, h: nat)
    requires Whole(heap, doc, h)
    ensures Whole(heap, AtIn(heap, doc, "components"), h)
    ensures forall k :: ComponentOf(FieldsOf(heap, doc, h), k) ==
              var home := FieldsOf(heap, AtIn(heap, doc, "components"), h);
              if ObjectAt(home, k).Some? then ObjectAt(home, k).value else map[]
  {
    SectionUnder(heap, doc, "components", h);
    EntriesOf(heap, AtIn(heap, doc, "components"), h);
  }

  /** The maps that lead to the sections. */
  ghost function Spine(heap: Heap, doc: Option<Node>, swagger: bool): set<Node> {
    set n | n in [doc, AtIn(heap, doc, "paths"), Home(heap, doc, swagger),
                  AtIn(heap, Home(heap, doc, swagger), SchemasKey(swagger)),
                  AtIn(heap, Home(heap, doc, swagger), SchemesKey(swagger))] && n.Some? :: n.value
  }

  lemma SpineWithin(heap: Heap, doc: Option<Node>, swagger: bool, h: nat)
    requires Whole(heap, doc, h)
    ensures Spine(heap, doc, swagger) <= ReachOf(heap, doc, h)
  {
    hide Closed, Below, Unshared, View, Reach;
    EntriesOf(heap, doc, h);
    SectionUnder(heap, doc, "paths", h);
    EntriesOf(heap, AtIn(heap, doc, "paths"), h);
    if !swagger {
      SectionUnder(heap, doc, "components", h);
    }
    var home := Home(heap, doc, swagger);
    EntriesOf(heap, home, h);
    SectionUnder(heap, home, SchemasKey(swagger), h);
    SectionUnder(heap, home, SchemesKey(swagger), h);
    EntriesOf(heap, AtIn(heap, home, SchemasKey(swagger)), h);
    EntriesOf(heap, AtIn(heap, home, SchemesKey(swagger)), h);
  }

  /** A document's sections stay while the maps that lead to them do. */
  lemma SameSections(heap: Heap, now: Heap, doc: Option<Node>, swagger: bool, h: nat)
    requires Whole(heap, doc, h) && heap.Keys <= now.Keys
    requires forall n :: n in ReachOf(heap, doc, h) ==> now[n] == heap[n]
    ensures SectionsOf(now, doc, swagger) == SectionsOf(heap, doc, swagger)
  {
    SpineWithin(heap, doc, swagger, h);
    var spine := [doc, AtIn(heap, doc, "paths"), Home(heap, doc, swagger),
                  AtIn(heap, Home(heap, doc, swagger), SchemasKey(swagger)),
                  AtIn(heap, Home(heap, doc, swagger), SchemesKey(swagger))];
    forall n | n in spine && n.Some? ensures n.value in heap && now[n.value] == heap[n.value] {
      assert n.value in Spine(heap, doc, swagger);
    }
    assert spine[0] in spine && spine[1] in spine && spine[2] in spine && spine[3] in spine && spine[4] in spine;
  }

  /** The sections of a document, as the handler reads them. */
  method ReadSections(ghost all: set<Node>, doc: Option<Node>, swagger: bool) returns (p: Cells, d: Cells, s: Cells)
    requires Closed(Snapshot(all)) && (doc.Some? ==> doc.value in all)
    ensures [p, d, s] == SectionsOf(Snapshot(all), doc, swagger)
  {
    ghost var heap := Snapshot(all);
    var home := if swagger then doc else At(doc, "components");
    assert home == Home(heap, doc, swagger) && (home.Some? ==> home.value in all);
    p := Entries(At(doc, "paths"));
    d := Entries(At(home, SchemasKey(swagger)));
    s := Entries(At(home, SchemesKey(swagger)));
  }

  /** The path items of a document lie in it. */
  lemma ItemsWithin(heap: Heap, doc: Option<Node>, swagger: bool, h: nat)
    requires Whole(heap, doc, h)
    ensures ItemMaps(SectionsOf(heap, doc, swagger)[0]) <= ReachOf(heap, doc, h)
  {
    SectionUnder(heap, doc, "paths", h);
    var f := SectionsOf(heap, doc, swagger)[0];
    forall n | n in ItemMaps(f) ensures n in ReachAll(heap, f, h) {
      var k :| k in f && f[k] == Ref(n);
      PartOfAll(heap, f, k, h);
    }
  }

  // ----- one document -----

  /** The parts after the document at `at` was poured into the three sections. */
  function Filled(parts: seq<Cells>, paths: Cells, schemas: Cells, schemes: Cells, at: nat): seq<Cells>
    requires 3 <= at && at + 2 < |parts|
  {
    parts[0 := paths][at := map[]][1 := schemas][at + 1 := map[]][2 := schemes][at + 2 := map[]]
  }

  function DocumentPoured(v: seq<Fields>, at: nat, swagger: bool): (r: seq<Fields>)
    requires 3 <= at && at + 2 < |v|
    ensures |r| == |v|
  {
    v[0 := MergedPaths(v[0], v[at])][at := map[]]
     [1 := FirstWins(v[1], v[at + 1])][at + 1 := map[]]
     [2 := FirstWins(v[2], if swagger then AsBearers(v[at + 2]) else v[at + 2])][at + 2 := map[]]
  }

  /** Pour the sections of one document into the merged ones. */
  method PourDocument(ghost all: set<Node>, paths: Node, schemas: Node, schemes: Node, p: Cells, d: Cells, s: Cells, swagger: bool,
                      ghost parts: seq<Cells>, ghost at: nat, ghost h: nat, ghost level: nat)
    returns (ghost now: set<Node>)
    requires paths !in all && schemas !in all && schemes !in all && paths != schemas && paths != schemes && schemas != schemes
    requires Apart(Snapshot(all), parts, h) && 3 <= at && at + 2 < |parts|
    requires parts[0] == paths.fields && parts[1] == schemas.fields && parts[2] == schemes.fields
    requires parts[at] == p && parts[at + 1] == d && parts[at + 2] == s
    requires Level(paths.fields, level) && Level(p, level)
    modifies paths, schemas, schemes, all
    ensures all <= now && fresh(now - all) && paths !in now && schemas !in now && schemes !in now
    ensures Apart(Snapshot(now), Filled(parts, paths.fields, schemas.fields, schemes.fields, at), h) && Level(paths.fields, level)
    ensures Views(Snapshot(now), Filled(parts, paths.fields, schemas.fields, schemes.fields, at), h) ==
            DocumentPoured(Views(old(Snapshot(all)), parts, h), at, swagger)
    ensures ItemMaps(paths.fields) <= old(ItemMaps(paths.fields)) + ItemMaps(p)
    ensures forall n :: n in all && n !in old(ItemMaps(paths.fields)) ==> n.fields == old(n.fields)
  {
    hide Apart, Closed, Views, ViewAll, AllBelow, MergedPaths, FirstWins, AsBearers, ItemMaps, Level;
    PourPaths(all, paths, p, parts, 0, at, h, level);
    ghost var parts1 := parts[0 := paths.fields][at := map[]];
    PourMissing(all, schemas, d, parts1, 1, at + 1, h);
    ghost var parts2 := parts1[1 := schemas.fields][at + 1 := map[]];
    if swagger {
      now := AddSchemes(all, schemes, s, parts2, 2, at + 2, h);
    } else {
      PourMissing(all, schemes, s, parts2, 2, at + 2, h);
      now := all;
    }
  }

  method MergeDocument(ghost all: set<Node>, paths: Node, schemas: Node, schemes: Node, doc: Option<Node>, swagger: bool,
                       ghost parts: seq<Cells>, ghost at: nat, ghost h: nat, ghost level: nat)
    returns (ghost now: set<Node>)
    requires paths !in all && schemas !in all && schemes !in all && paths != schemas && paths != schemes && schemas != schemes
    requires Apart(Snapshot(all), parts, h) && 3 <= at && at + 2 < |parts|
    requires parts[0] == paths.fields && parts[1] == schemas.fields && parts[2] == schemes.fields
    requires (doc.Some? ==> doc.value in all) && parts[at..at + 3] == SectionsOf(Snapshot(all), doc, swagger)
    requires Level(paths.fields, level) && Level(parts[at], level)
    modifies paths, schemas, schemes, all
    ensures all <= now && fresh(now - all) && paths !in now && schemas !in now && schemes !in now
    ensures Apart(Snapshot(now), Filled(parts, paths.fields, schemas.fields, schemes.fields, at), h) && Level(paths.fields, level)
    ensures Views(Snapshot(now), Filled(parts, paths.fields, schemas.fields, schemes.fields, at), h) ==
            DocumentPoured(Views(old(Snapshot(all)), parts, h), at, swagger)
    ensures ItemMaps(paths.fields) <= old(ItemMaps(paths.fields)) + ItemMaps(parts[at])
    ensures forall n :: n in all && n !in old(ItemMaps(paths.fields)) ==> n.fields == old(n.fields)
  {
    var p, d, s := ReadSections(all, doc, swagger);
    ghost var three := parts[at..at + 3];
    assert three[0] == parts[at] && three[1] == parts[at + 1] && three[2] == parts[at + 2];
    now := PourDocument(all, paths, schemas, schemes, p, d, s, swagger, parts, at, h, level);
  }

  /** The parts are in place for the three sections' maps and the document at `at`. */
  ghost predicate Ready(heap: Heap, paths: Node, schemas: Node, schemes: Node, parts: seq<Cells>, h: nat, level: nat)
    reads paths, schemas, schemes
  {
    && paths !in heap && schemas !in heap && schemes !in heap && paths != schemas && paths != schemes && schemas != schemes
    && Apart(heap, parts, h) && |parts| == 13 && Level(paths.fields, level)
    && parts[0] == paths.fields && parts[1] == schemas.fields && parts[2] == schemes.fields
  }

  lemma FilledRest(parts: seq<Cells>, paths: Cells, schemas: Cells, schemes: Cells, at: nat)
    requires 3 <= at && at + 2 < |parts|
    ensures var after := Filled(parts, paths, schemas, schemes, at);
            && |after| == |parts| && after[0] == paths && after[1] == schemas && after[2] == schemes
            && after[at + 3..] == parts[at + 3..]
  {
  }

  /** The next document, of which nothing was touched so far. */
  method MergeNext(ghost heap: Heap, ghost all: set<Node>, paths: Node, schemas: Node, schemes: Node, doc: Option<Node>, swagger: bool,
                   ghost parts: seq<Cells>, ghost at: nat, ghost h: nat, ghost level: nat, ghost touched: set<Node>)
    returns (ghost now: set<Node>, ghost after: seq<Cells>)
    requires Ready(Snapshot(all), paths, schemas, schemes, parts, h, level) && 3 <= at <= 9
    requires Whole(heap, doc, h) && heap.Keys <= all && forall n :: n in ReachOf(heap, doc, h) ==> n.fields == heap[n]
    requires parts[at..at + 3] == SectionsOf(heap, doc, swagger) && Level(parts[at], level)
    requires ItemMaps(paths.fields) <= touched
    modifies paths, schemas, schemes, all
    ensures all <= now && fresh(now - all)
    ensures Ready(Snapshot(now), paths, schemas, schemes, after, h, level) && after[at + 3..] == parts[at + 3..]
    ensures Views(Snapshot(now), after, h) == DocumentPoured(Views(old(Snapshot(all)), parts, h), at, swagger)
    ensures ItemMaps(paths.fields) <= touched + ReachOf(heap, doc, h)
    ensures forall n :: n in all && n !in touched ==> n.fields == old(n.fields)
  {
    EntriesOf(heap, doc, h);
    SameSections(heap, Snapshot(all), doc, swagger, h);
    ItemsWithin(heap, doc, swagger, h);
    assert parts[at] == parts[at..at + 3][0];
    now := MergeDocument(all, paths, schemas, schemes, doc, swagger, parts, at, h, level);
    after := Filled(parts, paths.fields, schemas.fields, schemes.fields, at);
    FilledRest(parts, paths.fields, schemas.fields, schemes.fields, at);
  }
}
