/** Rewriting one artifact: idempotent, complete, order-free, and on flat documents exact. */
module InlineRewrites {
  import opened Options
  import opened InlineArtifacts

  // No artifact-shaped object anywhere.
  predicate Bare(v: Json) {
    match v
    case Obj(f) => !Shaped(f) && BareFields(f)
    case Arr(items) => BareItems(items)
    case _ => true
  }

  predicate BareItems(items: Items) {
    match items case NoItems => true case Item(v, rest) => Bare(v) && BareItems(rest)
  }

  predicate BareFields(f: Fields) {
    match f case NoFields => true case Field(_, v, more) => Bare(v) && BareFields(more)
  }

  // No artifact-shaped object inside another.
  predicate Flat(v: Json) {
    match v
    case Obj(f) => if Shaped(f) then BareFields(f) else FlatFields(f)
    case Arr(items) => FlatItems(items)
    case _ => true
  }

  predicate FlatItems(items: Items) {
    match items case NoItems => true case Item(v, rest) => Flat(v) && FlatItems(rest)
  }

  predicate FlatFields(f: Fields) {
    match f case NoFields => true case Field(_, v, more) => Flat(v) && FlatFields(more)
  }

  // A projection is recognised as such and hides no artifact of its own.
  predicate ProjectionOf(p: Json, id: string) {
    p.Obj? && ShapedAs(p.fields, id) && Projected(p.fields) && BareFields(p.fields)
  }

  // Adding a field to an object without artifact-shaped objects.
  lemma Add(n: Name, v: Json, more: Fields) returns (f: Fields)
    requires Bare(v) && BareFields(more)
    ensures f == Field(n, v, more) && BareFields(f)
    ensures n != KParts ==> Get(f, KParts) == Get(more, KParts)
    ensures n != KMetadata ==> Get(f, KMetadata) == Get(more, KMetadata)
    ensures n != KSchema ==> Get(f, KSchema) == Get(more, KSchema)
    ensures Get(f, n) == Some(v)
  {
    f := Field(n, v, more);
  }

  lemma ResolverIsBare(href: string)
    ensures Bare(ResolverOf(href))
  {
    var methods := Arr(Item(Str("GET"), Item(Str("HEAD"), NoItems)));
    assert BareItems(Item(Str("HEAD"), NoItems));
    assert BareItems(methods.items);
    var f := Add(KMethods, methods, NoFields);
    f := Add(KHref, Str(href), f);
    f := Add(KAuthenticated, Bool(true), f);
  }

  lemma PartIsBare(id: string, media: string, contentDigest: string, size: nat, href: string)
    ensures Bare(PartOf(id, media, contentDigest, size, href))
  {
    ResolverIsBare(href);
    var f := Add(KSizeBytes, Num(size), NoFields);
    f := Add(KSchema, Str("smesh-artifact-part/v1"), f);
    f := Add(KResolver, ResolverOf(href), f);
    f := Add(KMediaType, Str(media), f);
    f := Add(KContentDigest, Str(contentDigest), f);
    f := Add(KArtifactId, Str(id), f);
    assert Bare(Obj(f));
    var g := Add(KMediaType, Str("application/vnd.smesh.artifact-manifest+json"), NoFields);
    g := Add(KData, Obj(f), g);
  }

  lemma FactsAreBare(media: string, contentDigest: string, size: nat, manifestDigest: string, href: string)
    ensures var facts := FactsOf(media, contentDigest, size, manifestDigest, href);
            Bare(facts) && AsText(Member(facts, KSchema)) == Some(PROJECTION_SCHEMA)
  {
    var f := Add(KSizeBytes, Num(size), NoFields);
    f := Add(KSchema, Str(PROJECTION_SCHEMA), f);
    f := Add(KResolver, Str(href), f);
    f := Add(KMediaType, Str(media), f);
    f := Add(KManifestDigest, Str(manifestDigest), f);
    f := Add(KContentDigest, Str(contentDigest), f);
  }

  lemma AddOptional(n: Name, v: Option<string>, more: Fields)
    requires BareFields(more) && n in {KName, KDescription}
    ensures var f := Optional(n, v, more);
            BareFields(f) && Get(f, KParts) == Get(more, KParts) && Get(f, KMetadata) == Get(more, KMetadata)
  {
    if v.Some? { var _ := Add(n, Str(v.value), more); }
  }

  lemma BodyIsBare(name: Option<string>, part: Json, facts: Json) returns (f: Fields)
    requires Bare(part) && Bare(facts)
    ensures f == Field(KMetadata, Obj(Field(KSmeshArtifact, facts, NoFields)),
                       Optional(KName, name, Field(KParts, Arr(Item(part, NoItems)), NoFields)))
    ensures BareFields(f) && Get(f, KParts) == Some(Arr(Item(part, NoItems)))
    ensures Get(f, KMetadata) == Some(Obj(Field(KSmeshArtifact, facts, NoFields)))
  {
    assert BareItems(Item(part, NoItems));
    var parts := Add(KParts, Arr(Item(part, NoItems)), NoFields);
    AddOptional(KName, name, parts);
    var metadata := Add(KSmeshArtifact, facts, NoFields);
    f := Add(KMetadata, Obj(metadata), Optional(KName, name, parts));
  }

  lemma PresentationIsProjection(id: string, description: Option<string>, name: Option<string>, part: Json, facts: Json)
    requires Bare(part) && Bare(facts) && AsText(Member(facts, KSchema)) == Some(PROJECTION_SCHEMA)
    ensures ProjectionOf(Presentation(id, description, name, part, facts), id)
  {
    var f := BodyIsBare(name, part, facts);
    assert Bare(ExtensionList());
    var g := Add(KExtensions, ExtensionList(), f);
    AddOptional(KDescription, description, g);
    var h := Add(KArtifactId, Str(id), Optional(KDescription, description, g));
    assert Presentation(id, description, name, part, facts) == Obj(h);
    assert Shaped(h) && Projected(h);
  }

  // A projection as the manifest presents it: no field of a part, no mark of its own at the top.
  predicate Presented(p: Json, id: string) {
    ProjectionOf(p, id) &&
    forall k | k in {KSmeshArtifact, KSchema, KText, KRaw, KData, KUrl} :: Get(p.fields, k).None?
  }

  // A presentation has none of these fields.
  lemma PresentationLacks(id: string, description: Option<string>, name: Option<string>, part: Json, facts: Json,
                          k: Name)
    requires k in {KSmeshArtifact, KSchema, KText, KRaw, KData, KUrl}
    ensures Get(Presentation(id, description, name, part, facts).fields, k).None?
  {
    var parts := Field(KParts, Arr(Item(part, NoItems)), NoFields);
    var named := Optional(KName, name, parts);
    var marked := Field(KMetadata, Obj(Field(KSmeshArtifact, facts, NoFields)), named);
    var extended := Field(KExtensions, ExtensionList(), marked);
    var described := Optional(KDescription, description, extended);
    assert Get(NoFields, k).None? && Get(parts, k).None?;
    assert Get(named, k).None? && Get(marked, k).None?;
    assert Get(extended, k).None? && Get(described, k).None?;
  }

  lemma PresentationIsPresented(id: string, description: Option<string>, name: Option<string>, part: Json, facts: Json)
    requires Bare(part) && Bare(facts) && AsText(Member(facts, KSchema)) == Some(PROJECTION_SCHEMA)
    ensures Presented(Presentation(id, description, name, part, facts), id)
  {
    PresentationIsProjection(id, description, name, part, facts);
    var p := Presentation(id, description, name, part, facts);
    forall k | k in {KSmeshArtifact, KSchema, KText, KRaw, KData, KUrl} ensures Get(p.fields, k).None? {
      PresentationLacks(id, description, name, part, facts, k);
    }
  }

  /** The document that replaces an artifact is recognised as its projection, holds no inline artifact, and
      could not be taken for a part or for the mark of another projection. */
  lemma ShownIsPresented(id: string, name: Option<string>, description: Option<string>, media: string,
                         contentDigest: string, size: nat, manifestDigest: string)
    ensures Presented(Shown(id, name, description, media, contentDigest, size, manifestDigest), id)
  {
    var href := "/artifacts/v1/" + id;
    PartIsBare(id, media, contentDigest, size, href);
    FactsAreBare(media, contentDigest, size, manifestDigest, href);
    PresentationIsPresented(id, description, name, PartOf(id, media, contentDigest, size, href),
                            FactsOf(media, contentDigest, size, manifestDigest, href));
  }

  // ----- What a rewrite leaves alone -----

  // The value at the end of a path of member names.
  function Follow(v: Json, path: seq<Name>): Option<Json>
    decreases |path|
  {
    if path == [] then Some(v)
    else if Member(v, path[0]).None? then None
    else Follow(Member(v, path[0]).value, path[1..])
  }

  lemma FollowOne(v: Json, n: Name, path: seq<Name>)
    requires Member(v, n).Some?
    ensures Follow(v, [n] + path) == Follow(Member(v, n).value, path)
  {
    assert ([n] + path)[1..] == path;
  }

  // What a reader finds in the facts, and in the data of the one part.
  ghost predicate TellsFacts(v: Json, media: string, contentDigest: string, size: nat) {
    && Member(v, KMediaType) == Some(Str(media)) && Member(v, KContentDigest) == Some(Str(contentDigest))
    && Member(v, KSizeBytes) == Some(Num(size))
  }

  ghost predicate TellsText(v: Json, n: Name, t: Option<string>) {
    Member(v, n) == if t.Some? then Some(Str(t.value)) else None
  }

  /** The projection of a manifest tells what the manifest says: id, name, description, and, both in its mark and in
      the data of its one part, media type, content digest and size; in the mark also the manifest digest, and in
      both where the content is to be had. */
  lemma ShownTells(id: string, name: Option<string>, description: Option<string>, media: string,
                   contentDigest: string, size: nat, manifestDigest: string) returns (facts: Json, data: Json)
    ensures var v := Shown(id, name, description, media, contentDigest, size, manifestDigest);
            && Member(v, KArtifactId) == Some(Str(id)) && TellsText(v, KName, name)
            && TellsText(v, KDescription, description)
            && Follow(v, [KMetadata, KSmeshArtifact]) == Some(facts)
            && Member(v, KParts) == Some(Arr(Item(Obj(Field(KData, data, Field(KMediaType,
                 Str("application/vnd.smesh.artifact-manifest+json"), NoFields))), NoItems)))
    ensures TellsFacts(facts, media, contentDigest, size) && Member(facts, KManifestDigest) == Some(Str(manifestDigest))
    ensures Member(facts, KResolver) == Some(Str("/artifacts/v1/" + id))
    ensures TellsFacts(data, media, contentDigest, size) && Member(data, KArtifactId) == Some(Str(id))
    ensures Follow(data, [KResolver, KHref]) == Some(Str("/artifacts/v1/" + id))
  {
    var href := "/artifacts/v1/" + id;
    facts := FactsOf(media, contentDigest, size, manifestDigest, href);
    var part := PartOf(id, media, contentDigest, size, href);
    data := part.fields.value;
    TellsTop(id, description, name, part, facts);
    FactsTell(media, contentDigest, size, manifestDigest, href);
    DataTells(id, media, contentDigest, size, href);
    ResolverTells(data, href);
  }

  lemma TellsTop(id: string, description: Option<string>, name: Option<string>, part: Json, facts: Json)
    ensures var v := Presentation(id, description, name, part, facts);
            && Member(v, KArtifactId) == Some(Str(id)) && TellsText(v, KName, name)
            && TellsText(v, KDescription, description) && Follow(v, [KMetadata, KSmeshArtifact]) == Some(facts)
            && Member(v, KParts) == Some(Arr(Item(part, NoItems)))
  {
    var v := Presentation(id, description, name, part, facts);
    var parts := Field(KParts, Arr(Item(part, NoItems)), NoFields);
    var named := Optional(KName, name, parts);
    var mark := Obj(Field(KSmeshArtifact, facts, NoFields));
    var marked := Field(KMetadata, mark, named);
    var extended := Field(KExtensions, ExtensionList(), marked);
    var described := Optional(KDescription, description, extended);
    forall k | k in {KName, KDescription, KMetadata, KParts} ensures Get(v.fields, k) == Get(described, k) {}
    forall k | k in {KName, KMetadata, KParts} ensures Get(described, k) == Get(marked, k) {
      assert Get(described, k) == Get(extended, k) == Get(marked, k);
    }
    assert Get(extended, KDescription) == Get(marked, KDescription) == Get(named, KDescription);
    assert Get(named, KDescription) == Get(parts, KDescription) == Get(NoFields, KDescription) == None;
    assert Get(parts, KName) == Get(NoFields, KName) == None;
    assert Get(marked, KName) == Get(named, KName) && Get(marked, KParts) == Get(named, KParts) == Get(parts, KParts);
    assert Member(v, KMetadata) == Some(mark) && Member(mark, KSmeshArtifact) == Some(facts);
    assert [KMetadata] + [KSmeshArtifact] == [KMetadata, KSmeshArtifact];
    FollowOne(v, KMetadata, [KSmeshArtifact]);
    assert [KSmeshArtifact] + [] == [KSmeshArtifact];
    FollowOne(mark, KSmeshArtifact, []);
  }

  lemma FactsTell(media: string, contentDigest: string, size: nat, manifestDigest: string, href: string)
    ensures var facts := FactsOf(media, contentDigest, size, manifestDigest, href);
            && TellsFacts(facts, media, contentDigest, size)
            && Member(facts, KManifestDigest) == Some(Str(manifestDigest))
            && Member(facts, KResolver) == Some(Str(href))
  {
    var f := FactsOf(media, contentDigest, size, manifestDigest, href).fields;
    var a, b, d := f.more, f.more.more, f.more.more.more;
    assert Get(f, KManifestDigest) == Get(a, KManifestDigest);
    assert Get(f, KMediaType) == Get(a, KMediaType) == Get(b, KMediaType);
    assert Get(f, KResolver) == Get(a, KResolver) == Get(b, KResolver) == Get(d, KResolver);
    assert Get(f, KSizeBytes) == Get(a, KSizeBytes) == Get(b, KSizeBytes) == Get(d, KSizeBytes);
    assert Get(d, KSizeBytes) == Get(d.more, KSizeBytes) == Get(d.more.more, KSizeBytes);
  }

  lemma DataTells(id: string, media: string, contentDigest: string, size: nat, href: string)
    ensures var data := PartOf(id, media, contentDigest, size, href).fields.value;
            && TellsFacts(data, media, contentDigest, size) && Member(data, KArtifactId) == Some(Str(id))
            && Member(data, KResolver) == Some(ResolverOf(href))
  {
    var data := PartOf(id, media, contentDigest, size, href).fields.value;
    var f := data.fields;
    var a, b, d := f.more, f.more.more, f.more.more.more;
    assert Get(f, KContentDigest) == Get(a, KContentDigest);
    assert Get(f, KMediaType) == Get(a, KMediaType) == Get(b, KMediaType);
    assert Get(f, KResolver) == Get(a, KResolver) == Get(b, KResolver) == Get(d, KResolver);
    assert Get(f, KSizeBytes) == Get(a, KSizeBytes) == Get(b, KSizeBytes) == Get(d, KSizeBytes);
    assert Get(d, KSizeBytes) == Get(d.more, KSizeBytes) == Get(d.more.more, KSizeBytes);
  }

  lemma ResolverTells(data: Json, href: string)
    requires Member(data, KResolver) == Some(ResolverOf(href))
    ensures Follow(data, [KResolver, KHref]) == Some(Str(href))
  {
    var resolver := ResolverOf(href);
    assert Member(resolver, KHref) == Get(resolver.fields.more, KHref) == Some(Str(href));
    assert [KResolver] + [KHref] == [KResolver, KHref] && [KHref] + [] == [KHref];
    FollowOne(data, KResolver, [KHref]);
    FollowOne(resolver, KHref, []);
  }

  lemma {:induction false} GetRewritten(f: Fields, k: Name, id: string, p: Json)
    ensures Get(RewriteFields(f, id, p), k) ==
            if Get(f, k).Some? then Some(Rewrite(Get(f, k).value, id, p)) else None
  {
    if f.Field? { GetRewritten(f.more, k, id, p); }
  }

  // Replacing objects by an object turns nothing into, and makes nothing of, a string or an array.
  lemma ShapeKept(f: Fields, id: string, p: Json, x: string)
    requires p.Obj?
    ensures ShapedAs(RewriteFields(f, id, p), x) <==> ShapedAs(f, x)
    ensures Shaped(RewriteFields(f, id, p)) <==> Shaped(f)
  {
    GetRewritten(f, KArtifactId, id, p);
    GetRewritten(f, KParts, id, p);
  }

  lemma {:induction false} BareUntouched(v: Json, id: string, p: Json)
    requires Bare(v)
    ensures Rewrite(v, id, p) == v
  {
    match v
    case Obj(f) => BareFieldsUntouched(f, id, p);
    case Arr(items) => BareItemsUntouched(items, id, p);
    case _ =>
  }

  lemma {:induction false} BareItemsUntouched(items: Items, id: string, p: Json)
    requires BareItems(items)
    ensures RewriteItems(items, id, p) == items
  {
    if items.Item? { BareUntouched(items.head, id, p); BareItemsUntouched(items.rest, id, p); }
  }

  lemma {:induction false} BareFieldsUntouched(f: Fields, id: string, p: Json)
    requires BareFields(f)
    ensures RewriteFields(f, id, p) == f
  {
    if f.Field? { BareUntouched(f.value, id, p); BareFieldsUntouched(f.more, id, p); }
  }

  // ----- Idempotence, on every document -----

  lemma {:induction false} RewriteTwice(v: Json, id: string, p: Json)
    requires ProjectionOf(p, id)
    ensures Rewrite(Rewrite(v, id, p), id, p) == Rewrite(v, id, p)
  {
    match v
    case Obj(f) =>
      if !ShapedAs(f, id) { ShapeKept(f, id, p, id); RewriteFieldsTwice(f, id, p); }
    case Arr(items) => RewriteItemsTwice(items, id, p);
    case _ =>
  }

  lemma {:induction false} RewriteItemsTwice(items: Items, id: string, p: Json)
    requires ProjectionOf(p, id)
    ensures RewriteItems(RewriteItems(items, id, p), id, p) == RewriteItems(items, id, p)
  {
    if items.Item? { RewriteTwice(items.head, id, p); RewriteItemsTwice(items.rest, id, p); }
  }

  lemma {:induction false} RewriteFieldsTwice(f: Fields, id: string, p: Json)
    requires ProjectionOf(p, id)
    ensures RewriteFields(RewriteFields(f, id, p), id, p) == RewriteFields(f, id, p)
  {
    if f.Field? { RewriteTwice(f.value, id, p); RewriteFieldsTwice(f.more, id, p); }
  }

  // ----- Rewrites of different artifacts commute, on every document -----

  lemma {:induction false} RewritesCommute(v: Json, a: string, pa: Json, b: string, pb: Json)
    requires a != b && ProjectionOf(pa, a) && ProjectionOf(pb, b)
    ensures Rewrite(Rewrite(v, a, pa), b, pb) == Rewrite(Rewrite(v, b, pb), a, pa)
  {
    match v
    case Obj(f) =>
      ShapeKept(f, a, pa, b);
      ShapeKept(f, b, pb, a);
      BareFieldsUntouched(pa.fields, b, pb);
      BareFieldsUntouched(pb.fields, a, pa);
      FieldRewritesCommute(f, a, pa, b, pb);
    case Arr(items) => ItemRewritesCommute(items, a, pa, b, pb);
    case _ =>
  }

  lemma {:induction false} ItemRewritesCommute(items: Items, a: string, pa: Json, b: string, pb: Json)
    requires a != b && ProjectionOf(pa, a) && ProjectionOf(pb, b)
    ensures RewriteItems(RewriteItems(items, a, pa), b, pb) == RewriteItems(RewriteItems(items, b, pb), a, pa)
  {
    if items.Item? { RewritesCommute(items.head, a, pa, b, pb); ItemRewritesCommute(items.rest, a, pa, b, pb); }
  }

  lemma {:induction false} FieldRewritesCommute(f: Fields, a: string, pa: Json, b: string, pb: Json)
    requires a != b && ProjectionOf(pa, a) && ProjectionOf(pb, b)
    ensures RewriteFields(RewriteFields(f, a, pa), b, pb) == RewriteFields(RewriteFields(f, b, pb), a, pa)
  {
    if f.Field? { RewritesCommute(f.value, a, pa, b, pb); FieldRewritesCommute(f.more, a, pa, b, pb); }
  }

  // ----- Nothing named `id` is left to extract, on every document -----

  predicate Mentions(list: seq<Artifact>, id: string) { exists i :: 0 <= i < |list| && list[i].id == id }

  lemma {:induction false} NoneLeft(c: Codec, v: Json, id: string, p: Json)
    requires ProjectionOf(p, id)
    ensures var r := Extract(c, Rewrite(v, id, p)); r.Ok? ==> !Mentions(r.value, id)
  {
    match v
    case Obj(f) =>
      if !ShapedAs(f, id) { ShapeKept(f, id, p, id); NoneLeftFields(c, f, id, p); }
    case Arr(items) => NoneLeftItems(c, items, id, p);
    case _ =>
  }

  lemma {:induction false} NoneLeftItems(c: Codec, items: Items, id: string, p: Json)
    requires ProjectionOf(p, id)
    ensures var r := ExtractItems(c, RewriteItems(items, id, p)); r.Ok? ==> !Mentions(r.value, id)
  {
    if items.Item? { NoneLeft(c, items.head, id, p); NoneLeftItems(c, items.rest, id, p); }
  }

  lemma {:induction false} NoneLeftFields(c: Codec, f: Fields, id: string, p: Json)
    requires ProjectionOf(p, id)
    ensures var r := ExtractFields(c, RewriteFields(f, id, p)); r.Ok? ==> !Mentions(r.value, id)
  {
    if f.Field? { NoneLeft(c, f.value, id, p); NoneLeftFields(c, f.more, id, p); }
  }

  // ----- The count -----

  // How often a number occurs in a document.
  function Occurs(v: Json, n: int): nat {
    match v
    case Num(m) => if m == n then 1 else 0
    case Obj(f) => OccursInFields(f, n)
    case Arr(items) => OccursInItems(items, n)
    case _ => 0
  }

  function OccursInItems(items: Items, n: int): nat {
    match items
    case NoItems => 0
    case Item(v, rest) => Occurs(v, n) + OccursInItems(rest, n)
  }

  function OccursInFields(f: Fields, n: int): nat {
    match f
    case NoFields => 0
    case Field(_, v, more) => Occurs(v, n) + OccursInFields(more, n)
  }

  /** The count that a rewrite reports is the number of objects that it replaces: replaced by a number that does not
      occur in the document, they are as many as that number's occurrences afterwards. */
  lemma {:induction false} CountIsReplaced(v: Json, id: string, n: int)
    requires Occurs(v, n) == 0
    ensures Occurs(Rewrite(v, id, Num(n)), n) == Matches(v, id)
  {
    match v
    case Obj(f) => CountIsReplacedInFields(f, id, n);
    case Arr(items) => CountIsReplacedInItems(items, id, n);
    case _ =>
  }

  lemma {:induction false} CountIsReplacedInItems(items: Items, id: string, n: int)
    requires OccursInItems(items, n) == 0
    ensures OccursInItems(RewriteItems(items, id, Num(n)), n) == MatchesItems(items, id)
  {
    if items.Item? { CountIsReplaced(items.head, id, n); CountIsReplacedInItems(items.rest, id, n); }
  }

  lemma {:induction false} CountIsReplacedInFields(f: Fields, id: string, n: int)
    requires OccursInFields(f, n) == 0
    ensures OccursInFields(RewriteFields(f, id, Num(n)), n) == MatchesFields(f, id)
  {
    if f.Field? { CountIsReplaced(f.value, id, n); CountIsReplacedInFields(f.more, id, n); }
  }

  // ----- Flat documents: extraction afterwards is the original list without `id` -----

  function Without(list: seq<Artifact>, id: string): seq<Artifact> {
    if list == [] then []
    else (if list[0].id == id then [] else [list[0]]) + Without(list[1..], id)
  }

  lemma {:induction false} WithoutAppend(a: seq<Artifact>, b: seq<Artifact>, id: string)
    ensures Without(a + b, id) == Without(a, id) + Without(b, id)
  {
    if a == [] {
      assert a + b == b;
    } else {
      assert (a + b)[1..] == a[1..] + b;
      WithoutAppend(a[1..], b, id);
    }
  }

  lemma AppendNothing()
    ensures Append(Ok([]), Ok([])) == Ok([])
  {
    var none: seq<Artifact> := [];
    assert none + none == none;
  }

  lemma WithoutOne(a: Artifact, id: string)
    ensures Without([a], id) == if a.id == id then [] else [a]
  {
    assert [a][1..] == [];
  }

  lemma {:induction false} BareYieldsNothing(c: Codec, v: Json)
    requires Bare(v)
    ensures Extract(c, v) == Ok([])
  {
    match v
    case Obj(f) => BareFieldsYieldNothing(c, f);
    case Arr(items) => BareItemsYieldNothing(c, items);
    case _ =>
  }

  lemma {:induction false} BareItemsYieldNothing(c: Codec, items: Items)
    requires BareItems(items)
    ensures ExtractItems(c, items) == Ok([])
  {
    if items.Item? {
      BareYieldsNothing(c, items.head);
      BareItemsYieldNothing(c, items.rest);
      AppendNothing();
    }
  }

  lemma {:induction false} BareFieldsYieldNothing(c: Codec, f: Fields)
    requires BareFields(f)
    ensures ExtractFields(c, f) == Ok([])
  {
    if f.Field? {
      BareYieldsNothing(c, f.value);
      BareFieldsYieldNothing(c, f.more);
      AppendNothing();
    }
  }

  lemma ExactOnArtifact(c: Codec, f: Fields, id: string, p: Json)
    requires ProjectionOf(p, id) && Shaped(f) && BareFields(f) && Extract(c, Obj(f)).Ok?
    ensures Extract(c, Rewrite(Obj(f), id, p)) == Ok(Without(Extract(c, Obj(f)).value, id))
  {
    BareFieldsYieldNothing(c, f);
    BareFieldsUntouched(f, id, p);
    match Read(c, f)
    case Leaf(a) => WithoutOne(a, id);
    case _ =>
  }

  lemma {:induction false} ExactOnFlat(c: Codec, v: Json, id: string, p: Json)
    requires ProjectionOf(p, id) && Flat(v) && Extract(c, v).Ok?
    ensures Extract(c, Rewrite(v, id, p)) == Ok(Without(Extract(c, v).value, id))
  {
    match v
    case Obj(f) =>
      if Shaped(f) {
        ExactOnArtifact(c, f, id, p);
      } else {
        ShapeKept(f, id, p, id);
        ExactOnFlatFields(c, f, id, p);
      }
    case Arr(items) => ExactOnFlatItems(c, items, id, p);
    case _ =>
  }

  lemma {:induction false} ExactOnFlatItems(c: Codec, items: Items, id: string, p: Json)
    requires ProjectionOf(p, id) && FlatItems(items) && ExtractItems(c, items).Ok?
    ensures ExtractItems(c, RewriteItems(items, id, p)) == Ok(Without(ExtractItems(c, items).value, id))
  {
    if items.Item? {
      ExactOnFlat(c, items.head, id, p);
      ExactOnFlatItems(c, items.rest, id, p);
      WithoutAppend(Extract(c, items.head).value, ExtractItems(c, items.rest).value, id);
    }
  }

  lemma {:induction false} ExactOnFlatFields(c: Codec, f: Fields, id: string, p: Json)
    requires ProjectionOf(p, id) && FlatFields(f) && ExtractFields(c, f).Ok?
    ensures ExtractFields(c, RewriteFields(f, id, p)) == Ok(Without(ExtractFields(c, f).value, id))
  {
    if f.Field? {
      ExactOnFlat(c, f.value, id, p);
      ExactOnFlatFields(c, f.more, id, p);
      WithoutAppend(Extract(c, f.value).value, ExtractFields(c, f.more).value, id);
    }
  }

  lemma {:induction false} FlatKept(v: Json, id: string, p: Json)
    requires ProjectionOf(p, id) && Flat(v)
    ensures Flat(Rewrite(v, id, p))
  {
    match v
    case Obj(f) =>
      if Shaped(f) { BareFieldsUntouched(f, id, p); }
      else { ShapeKept(f, id, p, id); FlatFieldsKept(f, id, p); }
    case Arr(items) => FlatItemsKept(items, id, p);
    case _ =>
  }

  lemma {:induction false} FlatItemsKept(items: Items, id: string, p: Json)
    requires ProjectionOf(p, id) && FlatItems(items)
    ensures FlatItems(RewriteItems(items, id, p))
  {
    if items.Item? { FlatKept(items.head, id, p); FlatItemsKept(items.rest, id, p); }
  }

  lemma {:induction false} FlatFieldsKept(f: Fields, id: string, p: Json)
    requires ProjectionOf(p, id) && FlatFields(f)
    ensures FlatFields(RewriteFields(f, id, p))
  {
    if f.Field? { FlatKept(f.value, id, p); FlatFieldsKept(f.more, id, p); }
  }

  // ----- An extracted artifact can be rewritten -----

  lemma {:induction false} ExtractedMatches(c: Codec, v: Json, id: string)
    requires Extract(c, v).Ok? && Mentions(Extract(c, v).value, id)
    ensures Matches(v, id) > 0
  {
    match v
    case Obj(f) => if Read(c, f).Descend? { ExtractedMatchesFields(c, f, id); }
    case Arr(items) => ExtractedMatchesItems(c, items, id);
  }

  lemma {:induction false} ExtractedMatchesItems(c: Codec, items: Items, id: string)
    requires ExtractItems(c, items).Ok? && Mentions(ExtractItems(c, items).value, id)
    ensures MatchesItems(items, id) > 0
  {
    var a := Extract(c, items.head).value;
    if Mentions(a, id) { ExtractedMatches(c, items.head, id); }
    else { LaterMention(a, ExtractItems(c, items.rest).value, id); ExtractedMatchesItems(c, items.rest, id); }
  }

  lemma {:induction false} ExtractedMatchesFields(c: Codec, f: Fields, id: string)
    requires ExtractFields(c, f).Ok? && Mentions(ExtractFields(c, f).value, id)
    ensures MatchesFields(f, id) > 0
  {
    var a := Extract(c, f.value).value;
    if Mentions(a, id) { ExtractedMatches(c, f.value, id); }
    else { LaterMention(a, ExtractFields(c, f.more).value, id); ExtractedMatchesFields(c, f.more, id); }
  }

  lemma LaterMention(a: seq<Artifact>, b: seq<Artifact>, id: string)
    requires Mentions(a + b, id) && !Mentions(a, id)
    ensures Mentions(b, id)
  {
    var i :| 0 <= i < |a + b| && (a + b)[i].id == id;
    assert b[i - |a|].id == id;
  }

  // ----- Small documents -----

  // An artifact named `id` whose only part carries the JSON value `d`.
  function DataArtifact(id: string, d: Json): Json {
    Obj(Field(KArtifactId, Str(id), Field(KParts, Arr(Item(Obj(Field(KData, d, NoFields)), NoItems)), NoFields)))
  }

  lemma OneField(n: Name, v: Json, k: Name)
    ensures Get(Field(n, v, NoFields), k) == if k == n then Some(v) else None
  {
    assert Get(NoFields, k) == None;
  }

  lemma TwoFields(n: Name, v: Json, m: Name, u: Json, k: Name)
    ensures Get(Field(n, v, Field(m, u, NoFields)), k) == if k == n then Some(v) else if k == m then Some(u) else None
  {
    OneField(m, u, k);
  }

  lemma ReadDataPart(c: Codec, d: Json)
    ensures AddPart(c, Obj(Field(KData, d, NoFields)), Parts([], [])) ==
            Ok(Parts([Part(Data, c.canonical(d), None, None)], []))
  {
    var f := Field(KData, d, NoFields);
    forall k ensures Get(f, k) == if k == KData then Some(d) else None { OneField(KData, d, k); }
    assert Present(f) == [KData];
    var read := Part(Data, c.canonical(d), None, None);
    assert [] + [read] == [read];
  }

  lemma PlainArtifact(id: string, items: Items)
    ensures var f := Field(KArtifactId, Str(id), Field(KParts, Arr(items), NoFields));
            && Shaped(f) && !Projected(f) && PartsOf(f) == items && IdOf(f) == id
            && GetText(f, KName) == None && GetText(f, KDescription) == None
  {
    TwoFields(KArtifactId, Str(id), KParts, Arr(items), KArtifactId);
    TwoFields(KArtifactId, Str(id), KParts, Arr(items), KParts);
    TwoFields(KArtifactId, Str(id), KParts, Arr(items), KMetadata);
    TwoFields(KArtifactId, Str(id), KParts, Arr(items), KName);
    TwoFields(KArtifactId, Str(id), KParts, Arr(items), KDescription);
  }

  lemma OnePart(c: Codec, v: Json, read: Parts)
    requires AddPart(c, v, Parts([], [])) == Ok(read)
    ensures ReadParts(c, Item(v, NoItems), Parts([], [])) == Ok(read)
  {
    assert ReadParts(c, NoItems, read) == Ok(read);
  }

  lemma LeafIsRead(c: Codec, f: Fields, read: Parts)
    requires Shaped(f) && !Projected(f) && ValidId(IdOf(f)) && read.inline != []
    requires ReadParts(c, PartsOf(f), Parts([], [])) == Ok(read)
    ensures Read(c, f) == Leaf(Artifact(IdOf(f), GetText(f, KName), GetText(f, KDescription), read.inline, read.urls))
  {
  }

  lemma PlainLeaf(c: Codec, id: string, items: Items, read: Parts)
    requires ValidId(id) && ReadParts(c, items, Parts([], [])) == Ok(read) && read.inline != []
    ensures Extract(c, Obj(Field(KArtifactId, Str(id), Field(KParts, Arr(items), NoFields)))) ==
            Ok([Artifact(id, None, None, read.inline, read.urls)])
  {
    PlainArtifact(id, items);
    var f := Field(KArtifactId, Str(id), Field(KParts, Arr(items), NoFields));
    LeafIsRead(c, f, read);
    assert Extract(c, Obj(f)) == Ok([Read(c, f).artifact]);
  }

  lemma ReadDataArtifact(c: Codec, id: string, d: Json)
    requires ValidId(id)
    ensures Extract(c, DataArtifact(id, d)) ==
            Ok([Artifact(id, None, None, [Part(Data, c.canonical(d), None, None)], [])])
  {
    ReadDataPart(c, d);
    var read := Parts([Part(Data, c.canonical(d), None, None)], []);
    OnePart(c, Obj(Field(KData, d, NoFields)), read);
    PlainLeaf(c, id, Item(Obj(Field(KData, d, NoFields)), NoItems), read);
  }

  lemma RewriteDataPart(d: Json, a: string, p: Json)
    ensures Rewrite(Obj(Field(KData, d, NoFields)), a, p) == Obj(Field(KData, Rewrite(d, a, p), NoFields))
  {
    var f := Field(KData, d, NoFields);
    assert Get(f, KArtifactId).None? by { assert Get(f.more, KArtifactId).None?; }
    assert RewriteFields(f.more, a, p) == NoFields;
  }

  lemma RewriteDataArtifact(b: string, d: Json, a: string, p: Json)
    requires a != b
    ensures Rewrite(DataArtifact(b, d), a, p) == DataArtifact(b, Rewrite(d, a, p))
  {
    RewriteDataPart(d, a, p);
    var items := Item(Obj(Field(KData, d, NoFields)), NoItems);
    assert RewriteItems(NoItems, a, p) == NoItems && RewriteFields(NoFields, a, p) == NoFields;
    assert RewriteItems(items, a, p) == Item(Obj(Field(KData, Rewrite(d, a, p), NoFields)), NoItems);
    var tail := Field(KParts, Arr(items), NoFields);
    assert RewriteFields(tail, a, p) == Field(KParts, Arr(RewriteItems(items, a, p)), NoFields);
    TwoFields(KArtifactId, Str(b), KParts, Arr(items), KArtifactId);
    assert DataArtifact(b, d) == Obj(Field(KArtifactId, Str(b), tail));
    assert RewriteFields(Field(KArtifactId, Str(b), tail), a, p) ==
             Field(KArtifactId, Str(b), RewriteFields(tail, a, p));
  }
}
