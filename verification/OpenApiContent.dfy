/**
 What stands where in the merged, rewritten document, said from the three documents fetched and
 key by key: which path, verb, schema and security scheme it has, and whose it is.
 */
module OpenApiContent {
  import opened Common
  import opened OpenApi

  // ----- what the document should hold -----

  /** What a fetched document has at a path of keys. */
  ghost function In(doc: Fetched, path: seq<Step>): Option<Json> {
    if doc.None? then None else Lookup(Object(doc.value), path)
  }

  /** The first of three that is there: auth before metadata before upload. */
  ghost function First(a: Option<Json>, m: Option<Json>, u: Option<Json>): Option<Json> {
    if a.Some? then a else if m.Some? then m else u
  }

  /** v stands at a path of the served document, rewritten as its place requires. */
  ghost predicate Stands(served: Json, path: seq<Step>, v: Option<Json>) {
    Lookup(served, path) == if v.None? then None else Some(Seen(path, v.value))
  }

  ghost function FirstIn(auth: Fetched, meta: Fetched, upload: Fetched, path: seq<Step>): Option<Json> {
    First(In(auth, path), In(meta, path), In(upload, path))
  }

  /**
   A path is there when a service has it.  If the first that has it has no object there, that
   value is served; else its methods are, and those the others have besides.
   */
  ghost predicate PathServed(served: Json, auth: Fetched, meta: Fetched, upload: Fetched, k: string) {
    var path := [Key("paths"), Key(k)];
    var first := FirstIn(auth, meta, upload, path);
    if first.None? || !first.value.Object? then Stands(served, path, first)
    else
      && Lookup(served, path).Some? && Lookup(served, path).value.Object?
      && forall verb :: MethodServed(served, auth, meta, upload, k, verb)
  }

  ghost predicate MethodServed(served: Json, auth: Fetched, meta: Fetched, upload: Fetched, k: string, verb: string) {
    var path := [Key("paths"), Key(k), Key(verb)];
    Stands(served, path, FirstIn(auth, meta, upload, path))
  }

  /** A schema is auth's component or the first of the others' definitions. */
  ghost predicate SchemaServed(served: Json, auth: Fetched, meta: Fetched, upload: Fetched, name: string) {
    Stands(served, [Key("components"), Key("schemas"), Key(name)],
           First(In(auth, [Key("components"), Key("schemas"), Key(name)]),
                 In(meta, [Key("definitions"), Key(name)]), In(upload, [Key("definitions"), Key(name)])))
  }

  /** The two schemes that are there whatever was fetched. */
  ghost function DefaultScheme(name: string): Option<Json> {
    if name == "BearerAuth" then
      Some(Object(map["type" := Str("http"), "scheme" := Str("bearer"), "bearerFormat" := Str("JWT"),
                      "description" := Str("Type \"Bearer {token}\"")]))
    else if name == "HTTPBearer" then Some(Object(map["type" := Str("http"), "scheme" := Str("bearer")]))
    else None
  }

  /** A Swagger 2.0 definition as OpenAPI 3 has it: an api key in the Authorization header is a bearer token. */
  ghost function Converted(v: Option<Json>): Option<Json> {
    if v.Some? && Lookup(v.value, [Key("type")]) == Some(Str("apiKey")) && Lookup(v.value, [Key("name")]) == Some(Str("Authorization")) then
      var description := Lookup(v.value, [Key("description")]);
      Some(Object(map["type" := Str("http"), "scheme" := Str("bearer"), "bearerFormat" := Str("JWT"),
                      "description" := if description.Some? then description.value else Null]))
    else v
  }

  /** A security scheme is a default, auth's component or the first of the others' definitions, converted. */
  ghost predicate SchemeServed(served: Json, auth: Fetched, meta: Fetched, upload: Fetched, name: string) {
    var fetched := First(In(auth, [Key("components"), Key("securitySchemes"), Key(name)]),
                         Converted(In(meta, [Key("securityDefinitions"), Key(name)])),
                         Converted(In(upload, [Key("securityDefinitions"), Key(name)])));
    Stands(served, [Key("components"), Key("securitySchemes"), Key(name)],
           if DefaultScheme(name).Some? then DefaultScheme(name) else fetched)
  }

  /** Around the three sections stands this and nothing else. */
  ghost predicate FrameServed(served: Json, info: Json) {
    && served.Object? && served.fields.Keys == {"openapi", "info", "servers", "paths", "components"}
    && served.fields["openapi"] == Str("3.0.1") && served.fields["info"] == Rewritten(info)
    && served.fields["servers"] == List([Object(map["url" := Str("/")])])
    && served.fields["paths"].Object? && served.fields["components"].Object?
    && served.fields["components"].fields.Keys == {"schemas", "securitySchemes"}
    && served.fields["components"].fields["schemas"].Object? && served.fields["components"].fields["securitySchemes"].Object?
  }

  ghost predicate ServedFrom(served: Json, info: Json, auth: Fetched, meta: Fetched, upload: Fetched) {
    && FrameServed(served, info)
    && (forall k :: PathServed(served, auth, meta, upload, k))
    && (forall name :: SchemaServed(served, auth, meta, upload, name))
    && (forall name :: SchemeServed(served, auth, meta, upload, name))
  }

  // ----- looking two and three keys down -----

  lemma LookupOne(j: Json, a: string)
    ensures Lookup(j, [Key(a)]) == if j.Object? && a in j.fields then Some(j.fields[a]) else None
  {
    assert [Key(a)][1..] == [];
  }

  lemma LookupTwo(j: Json, a: string, b: string)
    ensures Lookup(j, [Key(a), Key(b)]) ==
            if j.Object? && a in j.fields then Lookup(j.fields[a], [Key(b)]) else None
  {
    assert [Key(a), Key(b)][1..] == [Key(b)];
  }

  lemma LookupThree(j: Json, a: string, b: string, c: string)
    ensures Lookup(j, [Key(a), Key(b), Key(c)]) ==
            if j.Object? && a in j.fields then Lookup(j.fields[a], [Key(b), Key(c)]) else None
  {
    assert [Key(a), Key(b), Key(c)][1..] == [Key(b), Key(c)];
  }

  /** A key of a section, seen from the section. */
  ghost function At(f: Fields, k: string): Option<Json> {
    if k in f then Some(f[k]) else None
  }

  ghost function MethodAt(f: Fields, k: string, verb: string): Option<Json> {
    if k in f && f[k].Object? && verb in f[k].fields then Some(f[k].fields[verb]) else None
  }

  lemma PathsFetched(doc: Fetched, k: string, verb: string)
    ensures In(doc, [Key("paths"), Key(k)]) == At(PathsOf(Doc(doc)), k)
    ensures In(doc, [Key("paths"), Key(k), Key(verb)]) == MethodAt(PathsOf(Doc(doc)), k, verb)
  {
    if doc.Some? {
      var j := Object(doc.value);
      LookupTwo(j, "paths", k);
      LookupThree(j, "paths", k, verb);
      if "paths" in doc.value {
        LookupOne(doc.value["paths"], k);
        LookupTwo(doc.value["paths"], k, verb);
        if doc.value["paths"].Object? && k in doc.value["paths"].fields {
          LookupOne(doc.value["paths"].fields[k], verb);
        }
      }
    }
  }

  lemma DefinitionsFetched(doc: Fetched, name: string)
    ensures In(doc, [Key("definitions"), Key(name)]) == At(DefinitionsOf(Doc(doc)), name)
    ensures In(doc, [Key("securityDefinitions"), Key(name)]) == At(SecurityOf(Doc(doc)), name)
  {
    if doc.Some? {
      var j := Object(doc.value);
      LookupTwo(j, "definitions", name);
      LookupTwo(j, "securityDefinitions", name);
      if "definitions" in doc.value {
        LookupOne(doc.value["definitions"], name);
      }
      if "securityDefinitions" in doc.value {
        LookupOne(doc.value["securityDefinitions"], name);
      }
    }
  }

  lemma ComponentsFetched(doc: Fetched, section: string, name: string)
    ensures In(doc, [Key("components"), Key(section), Key(name)]) == At(ComponentOf(Doc(doc), section), name)
  {
    if doc.Some? {
      LookupThree(Object(doc.value), "components", section, name);
      if "components" in doc.value {
        LookupTwo(doc.value["components"], section, name);
        if doc.value["components"].Object? && section in doc.value["components"].fields {
          LookupOne(doc.value["components"].fields[section], name);
        }
      }
    }
  }

  /** The merged document's sections, before rewriting. */
  lemma InDocument(info: Json, paths: Fields, schemas: Fields, schemes: Fields, k: string, verb: string)
    ensures var d := Document(info, paths, schemas, schemes);
            && Lookup(d, [Key("paths"), Key(k)]) == At(paths, k)
            && Lookup(d, [Key("paths"), Key(k), Key(verb)]) == MethodAt(paths, k, verb)
            && Lookup(d, [Key("components"), Key("schemas"), Key(k)]) == At(schemas, k)
            && Lookup(d, [Key("components"), Key("securitySchemes"), Key(k)]) == At(schemes, k)
  {
    var d := Document(info, paths, schemas, schemes);
    Sections(info, paths, schemas, schemes);
    LookupTwo(d, "paths", k);
    LookupOne(Object(paths), k);
    LookupThree(d, "paths", k, verb);
    LookupTwo(Object(paths), k, verb);
    if k in paths {
      LookupOne(paths[k], verb);
    }
    var components := d.fields["components"];
    LookupThree(d, "components", "schemas", k);
    LookupTwo(components, "schemas", k);
    LookupOne(Object(schemas), k);
    LookupThree(d, "components", "securitySchemes", k);
    LookupTwo(components, "securitySchemes", k);
    LookupOne(Object(schemes), k);
  }

  lemma Sections(info: Json, paths: Fields, schemas: Fields, schemes: Fields)
    ensures var d := Document(info, paths, schemas, schemes).fields;
            && d.Keys == {"openapi", "info", "servers", "paths", "components"}
            && d["openapi"] == Str("3.0.1") && d["info"] == info && d["servers"] == List([Object(map["url" := Str("/")])])
            && d["paths"] == Object(paths)
            && d["components"].Object?
            && d["components"].fields.Keys == {"schemas", "securitySchemes"}
            && d["components"].fields["schemas"] == Object(schemas)
            && d["components"].fields["securitySchemes"] == Object(schemes)
  {
    assert |"schemas"| != |"securitySchemes"|;
    assert "openapi"[0] == 'o' && "info"[0] == 'i' && "servers"[0] == 's' && "paths"[0] == 'p' && "components"[0] == 'c';
  }

  // ----- three sources in turn -----

  /** Three documents' paths, merged one after the other. */
  lemma ThreePaths(a: Fields, m: Fields, u: Fields, k: string, verb: string)
    ensures var all := MergedPaths(MergedPaths(MergedPaths(map[], a), m), u);
            var first := First(At(a, k), At(m, k), At(u, k));
            && (k in all <==> first.Some?)
            && (first.Some? && !first.value.Object? ==> all[k] == first.value)
            && (first.Some? && first.value.Object? ==>
                  && all[k].Object?
                  && MethodAt(all, k, verb) == First(MethodAt(a, k, verb), MethodAt(m, k, verb), MethodAt(u, k, verb)))
  {
    var one := MergedPaths(map[], a);
    assert one == a;
    TwoPaths(a, m, k, verb);
    TwoPaths(MergedPaths(a, m), u, k, verb);
  }

  lemma TwoPaths(a: Fields, b: Fields, k: string, verb: string)
    ensures var all := MergedPaths(a, b);
            && (k in all <==> k in a || k in b)
            && (k in a && !a[k].Object? ==> all[k] == a[k])
            && (k !in a && k in b ==> all[k] == b[k])
            && (k in a && a[k].Object? ==>
                  && all[k].Object?
                  && MethodAt(all, k, verb) == if MethodAt(a, k, verb).Some? then MethodAt(a, k, verb) else MethodAt(b, k, verb))
  {
  }

  lemma ThreeSections(first: Fields, a: Fields, m: Fields, u: Fields, k: string)
    ensures At(FirstWins(FirstWins(FirstWins(first, a), m), u), k) ==
            if k in first then Some(first[k]) else First(At(a, k), At(m, k), At(u, k))
  {
  }

  lemma BearersConverted(f: Fields, k: string)
    ensures At(AsBearers(f), k) == Converted(At(f, k))
  {
    if k in f {
      LookupOne(f[k], "type");
      LookupOne(f[k], "name");
      LookupOne(f[k], "description");
    }
  }

  lemma Defaults(name: string)
    ensures At(DEFAULT_SCHEMES, name) == DefaultScheme(name)
  {
    assert "BearerAuth"[0] == 'B' && "HTTPBearer"[0] == 'H';
  }

  // ----- main result -----

  /** One verb of one path, before rewriting. */
  lemma PathsMerged(info: Json, auth: Fetched, meta: Fetched, upload: Fetched, k: string, verb: string)
    ensures var merged := Merged(info, auth, meta, upload);
            var first := FirstIn(auth, meta, upload, [Key("paths"), Key(k)]);
            && (first.None? || !first.value.Object? ==> Lookup(merged, [Key("paths"), Key(k)]) == first)
            && (first.Some? && first.value.Object? ==>
                  && Lookup(merged, [Key("paths"), Key(k)]).Some? && Lookup(merged, [Key("paths"), Key(k)]).value.Object?
                  && Lookup(merged, [Key("paths"), Key(k), Key(verb)]) == FirstIn(auth, meta, upload, [Key("paths"), Key(k), Key(verb)]))
  {
    PathsFetched(auth, k, verb);
    PathsFetched(meta, k, verb);
    PathsFetched(upload, k, verb);
    ThreePaths(PathsOf(Doc(auth)), PathsOf(Doc(meta)), PathsOf(Doc(upload)), k, verb);
    InDocument(info, AllPaths(auth, meta, upload), AllSchemas(auth, meta, upload), AllSchemes(auth, meta, upload), k, verb);
  }

  lemma PathsAreServed(info: Json, auth: Fetched, meta: Fetched, upload: Fetched, k: string)
    ensures PathServed(Rewritten(Merged(info, auth, meta, upload)), auth, meta, upload, k)
  {
    hide Merged, Rewritten, Lookup, Seen;
    var merged := Merged(info, auth, meta, upload);
    var path := [Key("paths"), Key(k)];
    var first := FirstIn(auth, meta, upload, path);
    PathsMerged(info, auth, meta, upload, k, "");
    RewritingKeepsPaths(merged, path);
    if first.Some? && first.value.Object? {
      StaysAnObject(path, Lookup(merged, path).value);
      forall verb ensures MethodServed(Rewritten(merged), auth, meta, upload, k, verb) {
        PathsMerged(info, auth, meta, upload, k, verb);
        RewritingKeepsPaths(merged, [Key("paths"), Key(k), Key(verb)]);
      }
    }
  }

  lemma StaysAnObject(path: seq<Step>, v: Json)
    requires v.Object?
    ensures Seen(path, v).Object?
  {
  }

  lemma SchemasAreServed(info: Json, auth: Fetched, meta: Fetched, upload: Fetched, name: string)
    ensures SchemaServed(Rewritten(Merged(info, auth, meta, upload)), auth, meta, upload, name)
  {
    var merged := Merged(info, auth, meta, upload);
    ComponentsFetched(auth, "schemas", name);
    DefinitionsFetched(meta, name);
    DefinitionsFetched(upload, name);
    ThreeSections(map[], ComponentOf(Doc(auth), "schemas"), DefinitionsOf(Doc(meta)), DefinitionsOf(Doc(upload)), name);
    InDocument(info, AllPaths(auth, meta, upload), AllSchemas(auth, meta, upload), AllSchemes(auth, meta, upload), name, "");
    hide Lookup, Seen, Rewritten, AllPaths, AllSchemes;
    RewritingKeepsPaths(merged, [Key("components"), Key("schemas"), Key(name)]);
  }

  lemma SchemesAreServed(info: Json, auth: Fetched, meta: Fetched, upload: Fetched, name: string)
    ensures SchemeServed(Rewritten(Merged(info, auth, meta, upload)), auth, meta, upload, name)
  {
    var merged := Merged(info, auth, meta, upload);
    ComponentsFetched(auth, "securitySchemes", name);
    DefinitionsFetched(meta, name);
    DefinitionsFetched(upload, name);
    BearersConverted(SecurityOf(Doc(meta)), name);
    BearersConverted(SecurityOf(Doc(upload)), name);
    Defaults(name);
    ThreeSections(DEFAULT_SCHEMES, ComponentOf(Doc(auth), "securitySchemes"), AsBearers(SecurityOf(Doc(meta))),
                  AsBearers(SecurityOf(Doc(upload))), name);
    InDocument(info, AllPaths(auth, meta, upload), AllSchemas(auth, meta, upload), AllSchemes(auth, meta, upload), name, "");
    hide Lookup, Seen, Rewritten, AllPaths, AllSchemas, Converted, DefaultScheme, AsBearers;
    RewritingKeepsPaths(merged, [Key("components"), Key("securitySchemes"), Key(name)]);
  }

  lemma FieldRewritten(j: Json, k: string)
    requires j.Object?
    ensures Rewritten(j).Object? && Rewritten(j).fields.Keys == j.fields.Keys
    ensures k in j.fields && k != REF ==> Rewritten(j).fields[k] == Rewritten(j.fields[k])
  {
  }

  lemma FrameIsServed(info: Json, paths: Fields, schemas: Fields, schemes: Fields)
    ensures FrameServed(Rewritten(Document(info, paths, schemas, schemes)), info)
  {
    var d := Document(info, paths, schemas, schemes);
    Sections(info, paths, schemas, schemes);
    LeavesStay();
    assert REF[0] == '$' && "schemas"[0] == 's' && "securitySchemes"[0] == 's';
    assert "openapi"[0] == 'o' && "info"[0] == 'i' && "servers"[0] == 's' && "paths"[0] == 'p' && "components"[0] == 'c';
    hide Rewritten, Document;
    FieldRewritten(d, "openapi");
    FieldRewritten(d, "info");
    FieldRewritten(d, "servers");
    FieldRewritten(d, "paths");
    FieldRewritten(d, "components");
    FieldRewritten(d.fields["components"], "schemas");
    FieldRewritten(d.fields["components"], "securitySchemes");
    FieldRewritten(Object(paths), "");
    FieldRewritten(Object(schemas), "");
    FieldRewritten(Object(schemes), "");
  }

  lemma LeavesStay()
    ensures Rewritten(Str("3.0.1")) == Str("3.0.1")
    ensures Rewritten(List([Object(map["url" := Str("/")])])) == List([Object(map["url" := Str("/")])])
  {
    assert REF[0] == '$' && "url"[0] == 'u';
    var url: Fields := map["url" := Str("/")];
    assert RewrittenFields(url) == url;
    var servers := List([Object(url)]);
    assert Rewritten(servers).items == servers.items;
  }

  /**
   The merged, rewritten document, over whatever documents were fetched: every path, method,
   schema and security scheme it holds is the one of the first service that has it, at the key
   that service keeps it under, and it holds all of them and nothing besides.
   */
  lemma MergedServes(info: Json, auth: Fetched, meta: Fetched, upload: Fetched)
    ensures ServedFrom(Rewritten(Merged(info, auth, meta, upload)), info, auth, meta, upload)
  {
    hide Rewritten, Merged, FrameServed, PathServed, SchemaServed, SchemeServed;
    FrameIsServed(info, AllPaths(auth, meta, upload), AllSchemas(auth, meta, upload), AllSchemes(auth, meta, upload));
    assert FrameServed(Rewritten(Merged(info, auth, meta, upload)), info) by {
      MergedIsADocument(info, auth, meta, upload);
    }
    forall k ensures PathServed(Rewritten(Merged(info, auth, meta, upload)), auth, meta, upload, k) {
      PathsAreServed(info, auth, meta, upload, k);
    }
    forall name
      ensures SchemaServed(Rewritten(Merged(info, auth, meta, upload)), auth, meta, upload, name)
      ensures SchemeServed(Rewritten(Merged(info, auth, meta, upload)), auth, meta, upload, name)
    {
      SchemasAreServed(info, auth, meta, upload, name);
      SchemesAreServed(info, auth, meta, upload, name);
    }
  }

  lemma MergedIsADocument(info: Json, auth: Fetched, meta: Fetched, upload: Fetched)
    ensures Merged(info, auth, meta, upload) ==
            Document(info, AllPaths(auth, meta, upload), AllSchemas(auth, meta, upload), AllSchemes(auth, meta, upload))
  {
  }

  // ----- what rewriting does to each place -----

  /** The path ends in "$ref" and comes by no other. */
  ghost predicate EndsInRef(path: seq<Step>) {
    path != [] && path[|path| - 1] == Key("$ref") && forall i :: 0 <= i < |path| - 1 ==> path[i] != Key("$ref")
  }

  /**
   Rewriting, place by place and over every document: a string directly under "$ref" that starts
   with "#/definitions/" names the component schema instead, every other leaf is as it was, and
   every object and list has the keys and the length it had.
   */
  lemma RewritingExactly(j: Json, path: seq<Step>)
    requires Lookup(j, path).Some?
    ensures var v := Lookup(j, path).value;
            var w := Lookup(Rewritten(j), path);
            && w.Some?
            && match v
               case Object(f) => w.value.Object? && w.value.fields.Keys == f.Keys
               case List(xs) => w.value.List? && |w.value.items| == |xs|
               case Str(s) =>
                 w.value == if EndsInRef(path) && "#/definitions/" <= s then Str("#/components/schemas/" + s[14..]) else v
               case _ => w.value == v
  {
    RewritingKeepsPaths(j, path);
    assert EndsInRef(path) <==> path != [] && path[|path| - 1] == Key(REF) && !PassesRef(path);
    assert |OLD| == 14;
  }

  /** A reference to a Swagger 2.0 definition becomes one to a component schema. */
  lemma ReferencesAreRewritten(name: string)
    ensures Rewritten(Object(map["$ref" := Str("#/definitions/" + name)])) == Object(map["$ref" := Str("#/components/schemas/" + name)])
  {
    assert ("#/definitions/" + name)[|OLD|..] == name;
    assert RewrittenFields(map["$ref" := Str("#/definitions/" + name)]) == map["$ref" := Str("#/components/schemas/" + name)];
  }
}
