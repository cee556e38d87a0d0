/**
 The gateway's merged OpenAPI document: three services' documents poured into one, and
 the Swagger 2.0 references rewritten to where their schemas now live.
 */
module OpenApi {
  import opened Common

  datatype Json =
    | Null
    | Bool(value: bool)
    | Number(digits: string)
    | Str(text: string)
    | List(items: seq<Json>)
    | Object(fields: map<string, Json>)

  type Fields = map<string, Json>

  const REF := "$ref"
  const OLD := "#/definitions/"
  const NEW := "#/components/schemas/"

  // ----- rewriting -----

  /** strings.Replace(s, OLD, NEW, 1) on a string that starts with OLD. */
  function NewRef(s: string): string {
    if OLD <= s then NEW + s[|OLD|..] else s
  }

  /** What becomes of the value under a "$ref" key: only a string is touched. */
  function RefValue(v: Json): Json {
    if v.Str? then Str(NewRef(v.text)) else v
  }

  function Rewritten(j: Json): Json {
    match j
    case Object(f) => Object(map k | k in f :: if k == REF then RefValue(f[k]) else Rewritten(f[k]))
    case List(xs) => List(seq(|xs|, i requires 0 <= i < |xs| => Rewritten(xs[i])))
    case _ => j
  }

  function RewrittenFields(f: Fields): Fields {
    map k | k in f :: if k == REF then RefValue(f[k]) else Rewritten(f[k])
  }

  lemma NewRefIsNotOld(s: string)
    ensures !(OLD <= NewRef(s))
    ensures NewRef(NewRef(s)) == NewRef(s)
  {
    assert NEW[2] == 'c' && OLD[2] == 'd';
    assert OLD <= s ==> NewRef(s)[2] == 'c';
  }

  lemma {:induction false} RewritingIsIdempotent(j: Json)
    ensures Rewritten(Rewritten(j)) == Rewritten(j)
    decreases j
  {
    match j
    case Object(f) =>
      var g := RewrittenFields(f);
      forall k | k in f ensures RewrittenFields(g)[k] == g[k] {
        if k == REF {
          if f[k].Str? {
            NewRefIsNotOld(f[k].text);
          }
        } else {
          RewritingIsIdempotent(f[k]);
        }
      }
      assert RewrittenFields(g) == g;
    case List(xs) =>
      forall i | 0 <= i < |xs| ensures Rewritten(Rewritten(xs[i])) == Rewritten(xs[i]) {
        RewritingIsIdempotent(xs[i]);
      }
      assert Rewritten(List(Rewritten(j).items)).items == Rewritten(j).items;
    case _ =>
  }

  // ----- what rewriting leaves alone -----

  datatype Step = Key(name: string) | Index(at: nat)

  function Lookup(j: Json, path: seq<Step>): Option<Json>
    decreases |path|
  {
    if path == [] then Some(j)
    else
      match path[0]
      case Key(k) => if j.Object? && k in j.fields then Lookup(j.fields[k], path[1..]) else None
      case Index(i) => if j.List? && i < |j.items| then Lookup(j.items[i], path[1..]) else None
  }

  /** The path goes through a "$ref" key before its last step. */
  predicate PassesRef(path: seq<Step>) {
    exists i :: 0 <= i < |path| - 1 && path[i] == Key(REF)
  }

  /** What stands at the end of a path after rewriting, given what stood there before. */
  function Seen(path: seq<Step>, v: Json): Json {
    if PassesRef(path) then v
    else if path != [] && path[|path| - 1] == Key(REF) then RefValue(v)
    else Rewritten(v)
  }

  /**
   Rewriting keeps every path, and changes nothing but the strings that stand directly under a "$ref"
   key and start with the old prefix: what is below another "$ref" stays, and every other leaf stays.
   */
  lemma {:induction false} RewritingKeepsPaths(j: Json, path: seq<Step>)
    ensures Lookup(Rewritten(j), path) == if Lookup(j, path).None? then None else Some(Seen(path, Lookup(j, path).value))
    decreases |path|
  {
    if path != [] {
      var rest := path[1..];
      if path[0] == Key(REF) {
        if rest == [] {
        } else {
          assert PassesRef(path);
          assert j.Object? && REF in j.fields && j.fields[REF].Str? ==> Lookup(RefValue(j.fields[REF]), rest).None?;
        }
      } else {
        assert PassesRef(path) <==> PassesRef(rest) by {
          assert forall i :: 0 <= i < |rest| ==> rest[i] == path[i + 1];
          if PassesRef(path) {
            var i :| 0 <= i < |path| - 1 && path[i] == Key(REF);
            assert rest[i - 1] == Key(REF);
          }
        }
        assert rest != [] ==> rest[|rest| - 1] == path[|path| - 1];
        match path[0]
        case Key(k) =>
          if j.Object? && k in j.fields {
            RewritingKeepsPaths(j.fields[k], rest);
          }
        case Index(i) =>
          if j.List? && i < |j.items| {
            RewritingKeepsPaths(j.items[i], rest);
          }
      }
    }
  }

  // ----- merging -----

  /** Entries of b are added where a has none. */
  function FirstWins<V>(a: map<string, V>, b: map<string, V>): map<string, V> {
    b + a
  }

  /** The object under a key, if there is one. */
  function ObjectAt(f: Fields, k: string): Option<Fields> {
    if k in f && f[k].Object? then Some(f[k].fields) else None
  }

  function PathsOf(doc: Fields): Fields {
    if ObjectAt(doc, "paths").Some? then ObjectAt(doc, "paths").value else map[]
  }

  function ComponentOf(doc: Fields, k: string): Fields {
    if ObjectAt(doc, "components").Some? && ObjectAt(ObjectAt(doc, "components").value, k).Some?
    then ObjectAt(ObjectAt(doc, "components").value, k).value
    else map[]
  }

  function DefinitionsOf(doc: Fields): Fields {
    if ObjectAt(doc, "definitions").Some? then ObjectAt(doc, "definitions").value else map[]
  }

  function SecurityOf(doc: Fields): Fields {
    if ObjectAt(doc, "securityDefinitions").Some? then ObjectAt(doc, "securityDefinitions").value else map[]
  }

  /** One path that both documents know: their methods are joined, if both are objects. */
  function JoinedPath(ours: Json, theirs: Json): Json {
    if ours.Object? && theirs.Object? then Object(FirstWins(ours.fields, theirs.fields)) else ours
  }

  function MergedPaths(dst: Fields, src: Fields): Fields {
    map k | k in dst.Keys + src.Keys ::
      if k !in dst then src[k] else if k in src then JoinedPath(dst[k], src[k]) else dst[k]
  }

  predicate IsApiKey(v: Json) {
    && v.Object?
    && "type" in v.fields && v.fields["type"] == Str("apiKey")
    && "name" in v.fields && v.fields["name"] == Str("Authorization")
  }

  /** A Swagger 2.0 Authorization apiKey is an OpenAPI 3 bearer scheme. */
  function AsBearer(v: Json): Json {
    if IsApiKey(v) then
      Object(map["type" := Str("http"), "scheme" := Str("bearer"), "bearerFormat" := Str("JWT"),
                 "description" := if "description" in v.fields then v.fields["description"] else Null])
    else v
  }

  function AsBearers(f: Fields): Fields {
    map k | k in f :: AsBearer(f[k])
  }

  // ----- the merged document -----

  /** A fetched document; None when the service did not answer 200 with a JSON object. */
  type Fetched = Option<Fields>

  function Doc(d: Fetched): Fields {
    if d.None? then map[] else d.value
  }

  const DEFAULT_SCHEMES: Fields := map[
    "BearerAuth" := Object(map["type" := Str("http"), "scheme" := Str("bearer"), "bearerFormat" := Str("JWT"),
                               "description" := Str("Type \"Bearer {token}\"")]),
    "HTTPBearer" := Object(map["type" := Str("http"), "scheme" := Str("bearer")])]

  function AllPaths(auth: Fetched, meta: Fetched, upload: Fetched): Fields {
    MergedPaths(MergedPaths(MergedPaths(map[], PathsOf(Doc(auth))), PathsOf(Doc(meta))), PathsOf(Doc(upload)))
  }

  function AllSchemas(auth: Fetched, meta: Fetched, upload: Fetched): Fields {
    FirstWins(FirstWins(FirstWins(map[], ComponentOf(Doc(auth), "schemas")), DefinitionsOf(Doc(meta))), DefinitionsOf(Doc(upload)))
  }

  function AllSchemes(auth: Fetched, meta: Fetched, upload: Fetched): Fields {
    FirstWins(FirstWins(FirstWins(DEFAULT_SCHEMES, ComponentOf(Doc(auth), "securitySchemes")), AsBearers(SecurityOf(Doc(meta)))),
              AsBearers(SecurityOf(Doc(upload))))
  }

  /** The document around its three filled sections. */
  function Document(info: Json, paths: Fields, schemas: Fields, schemes: Fields): Json {
    Object(map[
      "openapi" := Str("3.0.1"),
      "info" := info,
      "servers" := List([Object(map["url" := Str("/")])]),
      "paths" := Object(paths),
      "components" := Object(map["schemas" := Object(schemas), "securitySchemes" := Object(schemes)])])
  }

  function Merged(info: Json, auth: Fetched, meta: Fetched, upload: Fetched): Json {
    Document(info, AllPaths(auth, meta, upload), AllSchemas(auth, meta, upload), AllSchemes(auth, meta, upload))
  }

  // ----- references -----

  /** A reference to one of `olds` in the old form, or to one of `news` in the new form. */
  predicate RefOk(s: string, olds: set<string>, news: set<string>) {
    (OLD <= s && s[|OLD|..] in olds) || (NEW <= s && s[|NEW|..] in news)
  }

  /** Every string under a "$ref" key, anywhere in the tree, is such a reference. */
  predicate RefsIn(j: Json, olds: set<string>, news: set<string>) {
    match j
    case Object(f) => forall k :: k in f ==> (k == REF && f[k].Str? ==> RefOk(f[k].text, olds, news)) && RefsIn(f[k], olds, news)
    case List(xs) => forall i :: 0 <= i < |xs| ==> RefsIn(xs[i], olds, news)
    case _ => true
  }

  predicate FieldsIn(f: Fields, olds: set<string>, news: set<string>) {
    forall k :: k in f ==> (k == REF && f[k].Str? ==> RefOk(f[k].text, olds, news)) && RefsIn(f[k], olds, news)
  }

  /** No old-form reference anywhere in the tree. */
  predicate NoOld(j: Json) {
    match j
    case Object(f) => forall k :: k in f ==> (k == REF && f[k].Str? ==> !(OLD <= f[k].text)) && NoOld(f[k])
    case List(xs) => forall i :: 0 <= i < |xs| ==> NoOld(xs[i])
    case _ => true
  }

  /** Nothing in the old form hides where rewriteRefs does not go: below a "$ref" key that holds no string. */
  predicate NoneHidden(j: Json) {
    match j
    case Object(f) => forall k :: k in f ==> if k == REF then f[k].Str? || NoOld(f[k]) else NoneHidden(f[k])
    case List(xs) => forall i :: 0 <= i < |xs| ==> NoneHidden(xs[i])
    case _ => true
  }

  lemma {:induction false} MoreNames(j: Json, olds: set<string>, news: set<string>, olds': set<string>, news': set<string>)
    requires RefsIn(j, olds, news) && olds <= olds' && news <= news'
    ensures RefsIn(j, olds', news')
    decreases j
  {
    match j
    case Object(f) =>
      forall k | k in f ensures RefsIn(f[k], olds', news') {
        MoreNames(f[k], olds, news, olds', news');
      }
    case List(xs) =>
      forall i | 0 <= i < |xs| ensures RefsIn(xs[i], olds', news') {
        MoreNames(xs[i], olds, news, olds', news');
      }
    case _ =>
  }

  lemma {:induction false} UntouchedRefs(j: Json, names: set<string>)
    requires RefsIn(j, names, names)
    ensures RefsIn(j, {}, names) <==> NoOld(j)
    decreases j
  {
    match j
    case Object(f) =>
      forall k | k in f
        ensures RefsIn(f[k], {}, names) <==> NoOld(f[k])
        ensures k == REF && f[k].Str? ==> (RefOk(f[k].text, {}, names) <==> !(OLD <= f[k].text))
      {
        UntouchedRefs(f[k], names);
        if k == REF && f[k].Str? {
          NotBoth(f[k].text);
        }
      }
    case List(xs) =>
      forall i | 0 <= i < |xs| ensures RefsIn(xs[i], {}, names) <==> NoOld(xs[i]) {
        UntouchedRefs(xs[i], names);
      }
    case _ =>
  }

  lemma NotBoth(s: string)
    ensures !(OLD <= s && NEW <= s)
  {
    assert OLD[2] != NEW[2];
  }

  lemma NewRefResolves(s: string, names: set<string>)
    requires RefOk(s, names, names)
    ensures RefOk(NewRef(s), {}, names)
  {
    NotBoth(s);
    assert OLD <= s ==> NewRef(s)[|NEW|..] == s[|OLD|..];
  }

  /**
   If every reference of a tree names a known schema in either form, then after rewriting
   every one names it in the new form, exactly when no old-form reference is hidden below
   a "$ref" key that holds something other than a string.
   */
  lemma {:induction false} RewritingResolves(j: Json, names: set<string>)
    requires RefsIn(j, names, names)
    ensures RefsIn(Rewritten(j), {}, names) <==> NoneHidden(j)
    decreases j
  {
    match j
    case Object(f) =>
      var g := RewrittenFields(f);
      forall k | k in f
        ensures (k == REF && g[k].Str? ==> RefOk(g[k].text, {}, names)) && RefsIn(g[k], {}, names)
                <==> if k == REF then f[k].Str? || NoOld(f[k]) else NoneHidden(f[k])
      {
        if k != REF {
          RewritingResolves(f[k], names);
        } else if f[k].Str? {
          NewRefResolves(f[k].text, names);
        } else {
          UntouchedRefs(f[k], names);
        }
      }
    case List(xs) =>
      forall i | 0 <= i < |xs| ensures RefsIn(Rewritten(xs[i]), {}, names) <==> NoneHidden(xs[i]) {
        RewritingResolves(xs[i], names);
      }
      assert forall i :: 0 <= i < |xs| ==> Rewritten(j).items[i] == Rewritten(xs[i]);
    case _ =>
  }

  // ----- main results -----

  /** Each string reference of a document names one of its own schemas: components for auth, definitions for the others. */
  predicate SelfContained(auth: Fetched, meta: Fetched, upload: Fetched) {
    && RefsIn(Object(Doc(auth)), {}, ComponentOf(Doc(auth), "schemas").Keys)
    && RefsIn(Object(Doc(meta)), DefinitionsOf(Doc(meta)).Keys, {})
    && RefsIn(Object(Doc(upload)), DefinitionsOf(Doc(upload)).Keys, {})
  }

  lemma PartsOfADocument(doc: Fields, olds: set<string>, news: set<string>, olds': set<string>, news': set<string>, c: string)
    requires RefsIn(Object(doc), olds, news) && olds <= olds' && news <= news'
    ensures FieldsIn(PathsOf(doc), olds', news') && FieldsIn(DefinitionsOf(doc), olds', news')
    ensures FieldsIn(SecurityOf(doc), olds', news') && FieldsIn(ComponentOf(doc, c), olds', news')
  {
    MoreNames(Object(doc), olds, news, olds', news');
    ObjectAtIn(doc, "paths", olds', news');
    ObjectAtIn(doc, "definitions", olds', news');
    ObjectAtIn(doc, "securityDefinitions", olds', news');
    ObjectAtIn(doc, "components", olds', news');
    if ObjectAt(doc, "components").Some? {
      ObjectAtIn(ObjectAt(doc, "components").value, c, olds', news');
    }
  }

  lemma ObjectAtIn(f: Fields, k: string, olds: set<string>, news: set<string>)
    requires FieldsIn(f, olds, news)
    ensures ObjectAt(f, k).Some? ==> FieldsIn(ObjectAt(f, k).value, olds, news)
  {
  }

  lemma MergedFieldsIn(a: Fields, b: Fields, olds: set<string>, news: set<string>)
    requires FieldsIn(a, olds, news) && FieldsIn(b, olds, news)
    ensures FieldsIn(FirstWins(a, b), olds, news)
    ensures FieldsIn(MergedPaths(a, b), olds, news)
  {
    forall k | k in MergedPaths(a, b)
      ensures RefsIn(MergedPaths(a, b)[k], olds, news)
    {
      if k in a && k in b && a[k].Object? && b[k].Object? {
        assert RefsIn(a[k], olds, news) && RefsIn(b[k], olds, news);
        assert JoinedPath(a[k], b[k]).fields == FirstWins(a[k].fields, b[k].fields);
      }
    }
  }

  lemma BearersIn(f: Fields, olds: set<string>, news: set<string>)
    requires FieldsIn(f, olds, news)
    ensures FieldsIn(AsBearers(f), olds, news)
  {
    forall k | k in f ensures RefsIn(AsBearer(f[k]), olds, news) {
      assert RefsIn(f[k], olds, news);
    }
  }

  /** What the merge keeps: every reference of the merged tree names a merged schema, in its old or new form. */
  lemma MergedRefsAreKnown(info: Json, auth: Fetched, meta: Fetched, upload: Fetched)
    requires SelfContained(auth, meta, upload) && RefsIn(info, {}, {})
    ensures var names := AllSchemas(auth, meta, upload).Keys;
            RefsIn(Merged(info, auth, meta, upload), names, names)
  {
    var names := AllSchemas(auth, meta, upload).Keys;
    var a, m, u := Doc(auth), Doc(meta), Doc(upload);
    PartsOfADocument(a, {}, ComponentOf(a, "schemas").Keys, names, names, "schemas");
    PartsOfADocument(a, {}, ComponentOf(a, "schemas").Keys, names, names, "securitySchemes");
    PartsOfADocument(m, DefinitionsOf(m).Keys, {}, names, names, "");
    PartsOfADocument(u, DefinitionsOf(u).Keys, {}, names, names, "");
    PathsIn(a, m, u, names);
    SchemasIn(a, m, u, names);
    SchemesIn(a, m, u, names);
    MoreNames(info, {}, {}, names, names);
    DocumentIn(info, AllPaths(auth, meta, upload), AllSchemas(auth, meta, upload), AllSchemes(auth, meta, upload), names);
  }

  lemma PathsIn(a: Fields, m: Fields, u: Fields, names: set<string>)
    requires FieldsIn(PathsOf(a), names, names) && FieldsIn(PathsOf(m), names, names) && FieldsIn(PathsOf(u), names, names)
    ensures FieldsIn(MergedPaths(MergedPaths(MergedPaths(map[], PathsOf(a)), PathsOf(m)), PathsOf(u)), names, names)
  {
    MergedFieldsIn(map[], PathsOf(a), names, names);
    MergedFieldsIn(MergedPaths(map[], PathsOf(a)), PathsOf(m), names, names);
    MergedFieldsIn(MergedPaths(MergedPaths(map[], PathsOf(a)), PathsOf(m)), PathsOf(u), names, names);
  }

  lemma SchemasIn(a: Fields, m: Fields, u: Fields, names: set<string>)
    requires FieldsIn(ComponentOf(a, "schemas"), names, names)
    requires FieldsIn(DefinitionsOf(m), names, names) && FieldsIn(DefinitionsOf(u), names, names)
    ensures FieldsIn(FirstWins(FirstWins(FirstWins(map[], ComponentOf(a, "schemas")), DefinitionsOf(m)), DefinitionsOf(u)), names, names)
  {
    MergedFieldsIn(map[], ComponentOf(a, "schemas"), names, names);
    MergedFieldsIn(FirstWins(map[], ComponentOf(a, "schemas")), DefinitionsOf(m), names, names);
    MergedFieldsIn(FirstWins(FirstWins(map[], ComponentOf(a, "schemas")), DefinitionsOf(m)), DefinitionsOf(u), names, names);
  }

  lemma SchemesIn(a: Fields, m: Fields, u: Fields, names: set<string>)
    requires FieldsIn(ComponentOf(a, "securitySchemes"), names, names)
    requires FieldsIn(SecurityOf(m), names, names) && FieldsIn(SecurityOf(u), names, names)
    ensures FieldsIn(FirstWins(FirstWins(FirstWins(DEFAULT_SCHEMES, ComponentOf(a, "securitySchemes")),
                                         AsBearers(SecurityOf(m))), AsBearers(SecurityOf(u))), names, names)
  {
    BearersIn(SecurityOf(m), names, names);
    BearersIn(SecurityOf(u), names, names);
    MergedFieldsIn(DEFAULT_SCHEMES, ComponentOf(a, "securitySchemes"), names, names);
    var first := FirstWins(DEFAULT_SCHEMES, ComponentOf(a, "securitySchemes"));
    MergedFieldsIn(first, AsBearers(SecurityOf(m)), names, names);
    MergedFieldsIn(FirstWins(first, AsBearers(SecurityOf(m))), AsBearers(SecurityOf(u)), names, names);
  }

  lemma DocumentIn(info: Json, paths: Fields, schemas: Fields, schemes: Fields, names: set<string>)
    requires RefsIn(info, names, names)
    requires FieldsIn(paths, names, names) && FieldsIn(schemas, names, names) && FieldsIn(schemes, names, names)
    ensures RefsIn(Document(info, paths, schemas, schemes), names, names)
  {
    var components := map["schemas" := Object(schemas), "securitySchemes" := Object(schemes)];
    assert RefsIn(Object(components), names, names);
    assert RefsIn(Object(map["url" := Str("/")]), names, names);
    assert RefsIn(List([Object(map["url" := Str("/")])]), names, names);
  }

  /** The schema a new-form reference leads to in the merged document. */
  function Resolve(doc: Json, ref: string): Option<Json> {
    if NEW <= ref then Lookup(doc, [Key("components"), Key("schemas"), Key(ref[|NEW|..])]) else None
  }

  /** Every "$ref" string of a document resolves in that document. */
  ghost predicate AllResolve(doc: Json, j: Json) {
    match j
    case Object(f) => forall k :: k in f ==> (k == REF && f[k].Str? ==> Resolve(doc, f[k].text).Some?) && AllResolve(doc, f[k])
    case List(xs) => forall i :: 0 <= i < |xs| ==> AllResolve(doc, xs[i])
    case _ => true
  }

  lemma {:induction false} KnownRefsResolve(doc: Json, j: Json, names: set<string>)
    requires forall ref :: NEW <= ref ==> (Resolve(doc, ref).Some? <==> ref[|NEW|..] in names)
    ensures RefsIn(j, {}, names) <==> AllResolve(doc, j)
    decreases j
  {
    match j
    case Object(f) =>
      forall k | k in f ensures RefsIn(f[k], {}, names) <==> AllResolve(doc, f[k]) {
        KnownRefsResolve(doc, f[k], names);
      }
    case List(xs) =>
      forall i | 0 <= i < |xs| ensures RefsIn(xs[i], {}, names) <==> AllResolve(doc, xs[i]) {
        KnownRefsResolve(doc, xs[i], names);
      }
    case _ =>
  }

  /** Where a reference into the merged document leads. */
  lemma ResolveInMerged(info: Json, auth: Fetched, meta: Fetched, upload: Fetched, ref: string)
    requires NEW <= ref
    ensures var name := ref[|NEW|..];
            var schemas := RewrittenFields(AllSchemas(auth, meta, upload));
            Resolve(Rewritten(Merged(info, auth, meta, upload)), ref) ==
            if name in schemas then Some(schemas[name]) else None
  {
    var name := ref[|NEW|..];
    var path := [Key("components"), Key("schemas"), Key(name)];
    var merged := Merged(info, auth, meta, upload);
    SchemaAt(info, AllPaths(auth, meta, upload), AllSchemas(auth, meta, upload), AllSchemes(auth, meta, upload), name);
    RewritingKeepsPaths(merged, path);
    assert !PassesRef(path) by {
      assert path[0].name[0] == 'c' && path[1].name[0] == 's' && REF[0] == '$';
    }
  }

  lemma SchemaAt(info: Json, paths: Fields, schemas: Fields, schemes: Fields, name: string)
    ensures Lookup(Document(info, paths, schemas, schemes), [Key("components"), Key("schemas"), Key(name)]) ==
            if name in schemas then Some(schemas[name]) else None
  {
    var path := [Key("components"), Key("schemas"), Key(name)];
    assert path[1..] == [Key("schemas"), Key(name)];
    assert [Key("schemas"), Key(name)][1..] == [Key(name)];
    assert [Key(name)][1..] == [];
    var components := Object(map["schemas" := Object(schemas), "securitySchemes" := Object(schemes)]);
    assert |"schemas"| != |"securitySchemes"|;
    assert components.fields["schemas"] == Object(schemas);
    var doc := Document(info, paths, schemas, schemes);
    assert doc.fields["components"] == components;
    assert Lookup(doc, path) == Lookup(components, path[1..]);
    assert Lookup(components, [Key("schemas"), Key(name)]) == Lookup(Object(schemas), [Key(name)]);
    assert name in schemas ==> Lookup(Object(schemas), [Key(name)]) == Lookup(schemas[name], []);
  }

  /**
   The merged document serves references: when each source's references resolve in the
   source itself, every reference of the merged, rewritten document resolves in that
   document, exactly when none in the old form is hidden below a "$ref" key without a string.
   */
  lemma MergedReferencesResolve(info: Json, auth: Fetched, meta: Fetched, upload: Fetched)
    requires SelfContained(auth, meta, upload) && RefsIn(info, {}, {})
    ensures var merged := Merged(info, auth, meta, upload);
            AllResolve(Rewritten(merged), Rewritten(merged)) <==> NoneHidden(merged)
  {
    var merged := Merged(info, auth, meta, upload);
    var names := AllSchemas(auth, meta, upload).Keys;
    MergedRefsAreKnown(info, auth, meta, upload);
    RewritingResolves(merged, names);
    forall ref | NEW <= ref ensures Resolve(Rewritten(merged), ref).Some? <==> ref[|NEW|..] in names {
      ResolveInMerged(info, auth, meta, upload, ref);
    }
    KnownRefsResolve(Rewritten(merged), Rewritten(merged), names);
  }

  /** NoneHidden for the fields of an object. */
  predicate NoneHiddenIn(f: Fields) {
    forall k :: k in f ==> if k == REF then f[k].Str? || NoOld(f[k]) else NoneHidden(f[k])
  }

  lemma NoneHiddenAt(f: Fields, k: string)
    requires NoneHiddenIn(f) && k != REF
    ensures ObjectAt(f, k).Some? ==> NoneHiddenIn(ObjectAt(f, k).value)
  {
  }

  lemma NoneHiddenParts(doc: Fields, c: string)
    requires NoneHiddenIn(doc) && c != REF
    ensures NoneHiddenIn(PathsOf(doc)) && NoneHiddenIn(DefinitionsOf(doc))
    ensures NoneHiddenIn(SecurityOf(doc)) && NoneHiddenIn(ComponentOf(doc, c))
  {
    assert REF[0] == '$' && "paths"[0] == 'p' && "definitions"[0] == 'd' && "securityDefinitions"[0] == 's' && "components"[0] == 'c';
    NoneHiddenAt(doc, "paths");
    NoneHiddenAt(doc, "definitions");
    NoneHiddenAt(doc, "securityDefinitions");
    NoneHiddenAt(doc, "components");
    if ObjectAt(doc, "components").Some? {
      NoneHiddenAt(ObjectAt(doc, "components").value, c);
    }
  }

  lemma NoneHiddenMerged(a: Fields, b: Fields)
    requires NoneHiddenIn(a) && NoneHiddenIn(b)
    ensures NoneHiddenIn(FirstWins(a, b)) && NoneHiddenIn(MergedPaths(a, b))
  {
    var r := MergedPaths(a, b);
    forall k | k in r
      ensures if k == REF then r[k].Str? || NoOld(r[k]) else NoneHidden(r[k])
    {
      if k in a && k in b && a[k].Object? && b[k].Object? {
        assert r[k].fields == FirstWins(a[k].fields, b[k].fields);
        assert k == REF ==> NoOld(a[k]) && NoOld(b[k]);
        assert k != REF ==> NoneHidden(a[k]) && NoneHidden(b[k]);
      }
    }
  }

  lemma NoneHiddenBearers(f: Fields)
    requires NoneHiddenIn(f)
    ensures NoneHiddenIn(AsBearers(f))
  {
  }

  lemma NoneHiddenDocument(info: Json, paths: Fields, schemas: Fields, schemes: Fields)
    requires NoneHidden(info) && NoneHiddenIn(paths) && NoneHiddenIn(schemas) && NoneHiddenIn(schemes)
    ensures NoneHidden(Document(info, paths, schemas, schemes))
  {
    var components := map["schemas" := Object(schemas), "securitySchemes" := Object(schemes)];
    assert REF[0] == '$' && "schemas"[0] == 's' && "securitySchemes"[0] == 's' && "url"[0] == 'u';
    assert "openapi"[0] == 'o' && "info"[0] == 'i' && "servers"[0] == 's' && "paths"[0] == 'p' && "components"[0] == 'c';
    assert NoneHidden(Object(components));
    assert NoneHidden(Object(map["url" := Str("/")]));
    assert NoneHidden(List([Object(map["url" := Str("/")])]));
  }

  /** Seen from the sources: when none of them hides an old-form reference, all references of the result resolve. */
  lemma CleanSourcesResolve(info: Json, auth: Fetched, meta: Fetched, upload: Fetched)
    requires SelfContained(auth, meta, upload) && RefsIn(info, {}, {}) && NoneHidden(info)
    requires NoneHidden(Object(Doc(auth))) && NoneHidden(Object(Doc(meta))) && NoneHidden(Object(Doc(upload)))
    ensures var doc := Rewritten(Merged(info, auth, meta, upload)); AllResolve(doc, doc)
  {
    var a, m, u := Doc(auth), Doc(meta), Doc(upload);
    assert REF[0] == '$' && "schemas"[0] == 's' && "securitySchemes"[0] == 's';
    NoneHiddenParts(a, "schemas");
    NoneHiddenParts(a, "securitySchemes");
    NoneHiddenParts(m, "");
    NoneHiddenParts(u, "");
    NoneHiddenPaths(PathsOf(a), PathsOf(m), PathsOf(u));
    NoneHiddenChain(map[], ComponentOf(a, "schemas"), DefinitionsOf(m), DefinitionsOf(u));
    NoneHiddenBearers(SecurityOf(m));
    NoneHiddenBearers(SecurityOf(u));
    NoneHiddenDefaults();
    NoneHiddenChain(DEFAULT_SCHEMES, ComponentOf(a, "securitySchemes"), AsBearers(SecurityOf(m)), AsBearers(SecurityOf(u)));
    NoneHiddenDocument(info, AllPaths(auth, meta, upload), AllSchemas(auth, meta, upload), AllSchemes(auth, meta, upload));
    MergedReferencesResolve(info, auth, meta, upload);
  }

  lemma NoneHiddenDefaults()
    ensures NoneHiddenIn(DEFAULT_SCHEMES)
  {
  }

  lemma NoneHiddenChain(first: Fields, a: Fields, b: Fields, c: Fields)
    requires NoneHiddenIn(first) && NoneHiddenIn(a) && NoneHiddenIn(b) && NoneHiddenIn(c)
    ensures NoneHiddenIn(FirstWins(FirstWins(FirstWins(first, a), b), c))
  {
    NoneHiddenMerged(first, a);
    NoneHiddenMerged(FirstWins(first, a), b);
    NoneHiddenMerged(FirstWins(FirstWins(first, a), b), c);
  }

  lemma NoneHiddenPaths(a: Fields, b: Fields, c: Fields)
    requires NoneHiddenIn(a) && NoneHiddenIn(b) && NoneHiddenIn(c)
    ensures NoneHiddenIn(MergedPaths(MergedPaths(MergedPaths(map[], a), b), c))
  {
    NoneHiddenMerged(map[], a);
    NoneHiddenMerged(MergedPaths(map[], a), b);
    NoneHiddenMerged(MergedPaths(MergedPaths(map[], a), b), c);
  }

  /**
   A reference leads to the rewritten schema of the service it came from, as long as no
   service merged earlier has a schema of that name; then it leads to the earlier one's.
   */
  lemma ReferencesLeadHome(info: Json, auth: Fetched, meta: Fetched, upload: Fetched, name: string)
    requires name != REF
    ensures var doc := Rewritten(Merged(info, auth, meta, upload));
            var a := ComponentOf(Doc(auth), "schemas");
            var m := DefinitionsOf(Doc(meta));
            var u := DefinitionsOf(Doc(upload));
            && (name in a ==> Resolve(doc, NEW + name) == Some(Rewritten(a[name])))
            && (name in m && name !in a ==> Resolve(doc, NewRef(OLD + name)) == Some(Rewritten(m[name])))
            && (name in u && name !in a && name !in m ==> Resolve(doc, NewRef(OLD + name)) == Some(Rewritten(u[name])))
            && (name !in a && name !in m && name !in u ==> Resolve(doc, NEW + name).None?)
  {
    assert (NEW + name)[|NEW|..] == name;
    assert NewRef(OLD + name) == NEW + name by {
      assert (OLD + name)[|OLD|..] == name;
    }
    ResolveInMerged(info, auth, meta, upload, NEW + name);
  }

  /** A schema of metadata's with a property named "$ref" that is of the schema's own type. */
  function SelfTyped(name: string): Json {
    Object(map["properties" := Object(map[REF := Object(map[REF := Str(OLD + name)])])])
  }

  /**
   The condition bites: metadata's document with just such a schema has all its references
   in order, and whatever auth and upload say, as long as auth has no schema of that name,
   the merged document holds a reference that does not resolve.
   */
  lemma HiddenReferenceStaysBroken(info: Json, auth: Fetched, upload: Fetched, name: string)
    requires SelfContained(auth, None, upload) && RefsIn(info, {}, {})
    requires name !in ComponentOf(Doc(auth), "schemas")
    ensures var meta := Some(map["definitions" := Object(map[name := SelfTyped(name)])]);
            && SelfContained(auth, meta, upload)
            && var doc := Rewritten(Merged(info, auth, meta, upload)); !AllResolve(doc, doc)
  {
    var meta := Some(map["definitions" := Object(map[name := SelfTyped(name)])]);
    SelfTypedHides(name);
    SelfTypedDocument(name);
    var schemas := AllSchemas(auth, meta, upload);
    assert schemas[name] == SelfTyped(name);
    HiddenInDocument(info, AllPaths(auth, meta, upload), schemas, AllSchemes(auth, meta, upload), name);
    MergedReferencesResolve(info, auth, meta, upload);
  }

  lemma SelfTypedDocument(name: string)
    ensures var doc := map["definitions" := Object(map[name := SelfTyped(name)])];
            DefinitionsOf(doc) == map[name := SelfTyped(name)] && RefsIn(Object(doc), DefinitionsOf(doc).Keys, {})
  {
    assert map[name := SelfTyped(name)].Keys == {name};
    var definitions := map[name := SelfTyped(name)];
    SelfTypedHides(name);
    assert REF[0] == '$' && "definitions"[0] == 'd';
    assert RefsIn(Object(definitions), {name}, {}) by {
      assert forall k :: k in definitions ==> k == name;
    }
  }

  lemma SelfTypedHides(name: string)
    ensures RefsIn(SelfTyped(name), {name}, {}) && !NoneHidden(SelfTyped(name)) && !NoOld(SelfTyped(name))
  {
    var inner := Object(map[REF := Str(OLD + name)]);
    var properties := Object(map[REF := inner]);
    assert (OLD + name)[|OLD|..] == name;
    assert REF[0] == '$' && "properties"[0] == 'p';
    var ref := inner.fields[REF];
    assert ref.Str? && ref.text == OLD + name && OLD <= ref.text;
    assert RefOk(ref.text, {name}, {}) && RefsIn(ref, {name}, {});
    assert forall k :: k in inner.fields ==> k == REF;
    assert RefsIn(inner, {name}, {});
    assert !NoOld(inner);
    assert properties.fields[REF] == inner;
    assert RefsIn(properties, {name}, {}) && !NoneHidden(properties) && !NoOld(properties);
    assert SelfTyped(name).fields["properties"] == properties;
  }

  /** What a schema hides the document hides. */
  lemma HiddenInDocument(info: Json, paths: Fields, schemas: Fields, schemes: Fields, name: string)
    requires name in schemas && !NoneHidden(schemas[name]) && !NoOld(schemas[name])
    ensures !NoneHidden(Document(info, paths, schemas, schemes))
  {
    var components := map["schemas" := Object(schemas), "securitySchemes" := Object(schemes)];
    assert |"schemas"| != |"securitySchemes"| && REF[0] == '$' && "schemas"[0] == 's' && "components"[0] == 'c';
    assert !NoneHidden(Object(schemas)) by {
      if name == REF {
        assert !(schemas[REF].Str? || NoOld(schemas[REF]));
      }
    }
    assert components["schemas"] == Object(schemas);
    assert !NoneHidden(Object(components));
    assert Document(info, paths, schemas, schemes).fields["components"] == Object(components);
  }
}
