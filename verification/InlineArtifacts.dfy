/**
 Finding inline artifacts in a JSON document and replacing one of them by its manifest projection.
 */
module InlineArtifacts {
  import opened Options
  import opened IdealCrypto

  // Object fields are listed in the map's iteration order.
  datatype Json =
    | Null
    | Bool(b: bool)
    | Num(n: int)
    | Str(s: string)
    | Arr(items: Items)
    | Obj(fields: Fields)

  datatype Items = NoItems | Item(head: Json, rest: Items)

  datatype Fields = NoFields | Field(name: Name, value: Json, more: Fields)

  // A field name: one that this code reads or writes, or any other text.
  datatype Name =
    | KArtifactId | KParts | KMetadata | KSmeshArtifact | KSchema | KText | KRaw | KData | KUrl
    | KMediaType | KFilename | KName | KDescription
    | KAuthenticated | KHref | KMethods | KContentDigest | KResolver | KSizeBytes | KManifestDigest | KExtensions
    | Other(text: string)

  datatype Result<+T> = Ok(value: T) | Err

  // Coders that are plain functions of their input: UTF-8, standard base64 both ways, sorted-key serialisation.
  datatype Codec = Codec(utf8: string -> Bytes, base64: string -> Option<Bytes>, encode64: Bytes -> string,
                         canonical: Json -> Bytes)

  // Different values are serialised differently.
  ghost predicate Injective(c: Codec) { forall x, y :: c.canonical(x) == c.canonical(y) ==> x == y }

  datatype Kind = Text | Raw | Data

  datatype Part = Part(kind: Kind, bytes: Bytes, mediaType: Option<string>, filename: Option<string>)

  datatype Artifact = Artifact(
    id: string, name: Option<string>, description: Option<string>, parts: seq<Part>, urls: seq<string>)

  datatype Parts = Parts(inline: seq<Part>, urls: seq<string>)

  const PROJECTION_SCHEMA := "smesh-artifact-projection/v1"

  function Get(f: Fields, name: Name): Option<Json> {
    match f
    case NoFields => None
    case Field(n, v, more) => if n == name then Some(v) else Get(more, name)
  }

  function Member(v: Json, name: Name): Option<Json> {
    if v.Obj? then Get(v.fields, name) else None
  }

  function AsText(v: Option<Json>): Option<string> {
    if v.Some? && v.value.Str? then Some(v.value.s) else None
  }

  function GetText(f: Fields, name: Name): Option<string> { AsText(Get(f, name)) }

  // ----- What makes an object an artifact -----

  // An artifact-shaped object: a string `artifactId` and an array `parts`.
  predicate Shaped(f: Fields) {
    GetText(f, KArtifactId).Some? && Get(f, KParts).Some? && Get(f, KParts).value.Arr?
  }

  predicate ShapedAs(f: Fields, id: string) { Shaped(f) && GetText(f, KArtifactId) == Some(id) }

  function IdOf(f: Fields): string requires Shaped(f) { GetText(f, KArtifactId).value }

  function PartsOf(f: Fields): Items requires Shaped(f) { Get(f, KParts).value.items }

  predicate Projected(f: Fields) {
    Get(f, KMetadata).Some? && Member(Get(f, KMetadata).value, KSmeshArtifact).Some? &&
    AsText(Member(Member(Get(f, KMetadata).value, KSmeshArtifact).value, KSchema)) == Some(PROJECTION_SCHEMA)
  }

  predicate IdByte(c: char) {
    'a' <= c <= 'z' || 'A' <= c <= 'Z' || '0' <= c <= '9' || c in "-_.~"
  }

  predicate ValidId(id: string) {
    1 <= |id| <= 256 && id != "." && id != ".." && forall i | 0 <= i < |id| :: IdByte(id[i])
  }

  // ----- Extraction -----

  function Present(f: Fields): seq<Name> {
    (if Get(f, KText).Some? then [KText] else []) + (if Get(f, KRaw).Some? then [KRaw] else []) +
    (if Get(f, KData).Some? then [KData] else []) + (if Get(f, KUrl).Some? then [KUrl] else [])
  }

  function AddPart(c: Codec, v: Json, acc: Parts): Result<Parts> {
    if !v.Obj? then Err
    else
      var f := v.fields;
      if |Present(f)| != 1 then Err
      else
        var media, file := GetText(f, KMediaType), GetText(f, KFilename);
        if Get(f, KText).Some? then
          var text := GetText(f, KText);
          if text.None? then Err
          else Ok(acc.(inline := acc.inline + [Part(Text, c.utf8(text.value), media, file)]))
        else if Get(f, KRaw).Some? then
          var raw := GetText(f, KRaw);
          if raw.None? || c.base64(raw.value).None? then Err
          else Ok(acc.(inline := acc.inline + [Part(Raw, c.base64(raw.value).value, media, file)]))
        else if Get(f, KData).Some? then
          Ok(acc.(inline := acc.inline + [Part(Data, c.canonical(Get(f, KData).value), media, file)]))
        else
          var url := GetText(f, KUrl);
          if url.None? then Err else Ok(acc.(urls := acc.urls + [url.value]))
  }

  function ReadParts(c: Codec, items: Items, acc: Parts): Result<Parts> {
    match items
    case NoItems => Ok(acc)
    case Item(v, rest) =>
      match AddPart(c, v, acc)
      case Err => Err
      case Ok(next) => ReadParts(c, rest, next)
  }

  // What the extractor makes of an artifact-shaped object on its own, before looking at its children.
  datatype Reading = Skip | Bad | Leaf(artifact: Artifact) | Descend

  function Read(c: Codec, f: Fields): Reading {
    if !Shaped(f) then Descend
    else if Projected(f) then Skip
    else
      match ReadParts(c, PartsOf(f), Parts([], []))
      case Err => Bad
      case Ok(parts) =>
        if parts.inline == [] then Descend
        else if !ValidId(IdOf(f)) then Bad
        else Leaf(Artifact(IdOf(f), GetText(f, KName), GetText(f, KDescription), parts.inline, parts.urls))
  }

  function Append(a: Result<seq<Artifact>>, b: Result<seq<Artifact>>): Result<seq<Artifact>> {
    if a.Ok? && b.Ok? then Ok(a.value + b.value) else Err
  }

  function Extract(c: Codec, v: Json): Result<seq<Artifact>> {
    match v
    case Obj(f) =>
      (match Read(c, f)
       case Skip => Ok([])
       case Bad => Err
       case Leaf(a) => Ok([a])
       case Descend => ExtractFields(c, f))
    case Arr(items) => ExtractItems(c, items)
    case _ => Ok([])
  }

  function ExtractItems(c: Codec, items: Items): Result<seq<Artifact>> {
    match items
    case NoItems => Ok([])
    case Item(v, rest) => Append(Extract(c, v), ExtractItems(c, rest))
  }

  function ExtractFields(c: Codec, f: Fields): Result<seq<Artifact>> {
    match f
    case NoFields => Ok([])
    case Field(_, v, more) => Append(Extract(c, v), ExtractFields(c, more))
  }

  // ----- Rewriting -----

  // The document with every artifact-shaped object named `id` replaced.
  function Rewrite(v: Json, id: string, projection: Json): Json {
    match v
    case Obj(f) => if ShapedAs(f, id) then projection else Obj(RewriteFields(f, id, projection))
    case Arr(items) => Arr(RewriteItems(items, id, projection))
    case _ => v
  }

  function RewriteItems(items: Items, id: string, projection: Json): Items {
    match items
    case NoItems => NoItems
    case Item(v, rest) => Item(Rewrite(v, id, projection), RewriteItems(rest, id, projection))
  }

  function RewriteFields(f: Fields, id: string, projection: Json): Fields {
    match f
    case NoFields => NoFields
    case Field(n, v, more) => Field(n, Rewrite(v, id, projection), RewriteFields(more, id, projection))
  }

  // How many objects the rewrite replaces.
  function Matches(v: Json, id: string): nat {
    match v
    case Obj(f) => if ShapedAs(f, id) then 1 else MatchesFields(f, id)
    case Arr(items) => MatchesItems(items, id)
    case _ => 0
  }

  function MatchesItems(items: Items, id: string): nat {
    match items
    case NoItems => 0
    case Item(v, rest) => Matches(v, id) + MatchesItems(rest, id)
  }

  function MatchesFields(f: Fields, id: string): nat {
    match f
    case NoFields => 0
    case Field(_, v, more) => Matches(v, id) + MatchesFields(more, id)
  }

  // `rewrite_all`: the new document and the count, or a conflict when nothing matched.
  function RewriteAll(v: Json, id: string, projection: Json): Result<(Json, nat)> {
    if Matches(v, id) == 0 then Err else Ok((Rewrite(v, id, projection), Matches(v, id)))
  }

  // ----- The projection -----

  function MediaTypeOf(a: Artifact): string {
    if |a.parts| == 1 && a.urls == [] then
      match a.parts[0].mediaType
      case Some(m) => m
      case None =>
        (match a.parts[0].kind
         case Text => "text/plain; charset=utf-8"
         case Raw => "application/octet-stream"
         case Data => "application/json")
    else "application/vnd.smesh.inline-artifact+json"
  }

  function Optional(name: Name, v: Option<string>, more: Fields): Fields {
    if v.Some? then Field(name, Str(v.value), more) else more
  }

  // Objects below list their keys in the sorted order in which the map holds them.

  function ResolverOf(href: string): Json {
    Obj(Field(KAuthenticated, Bool(true), Field(KHref, Str(href),
        Field(KMethods, Arr(Item(Str("GET"), Item(Str("HEAD"), NoItems))), NoFields))))
  }

  function PartOf(id: string, media: string, contentDigest: string, size: nat, href: string): Json {
    var data := Obj(Field(KArtifactId, Str(id), Field(KContentDigest, Str(contentDigest),
                    Field(KMediaType, Str(media), Field(KResolver, ResolverOf(href),
                    Field(KSchema, Str("smesh-artifact-part/v1"), Field(KSizeBytes, Num(size), NoFields)))))));
    Obj(Field(KData, data, Field(KMediaType, Str("application/vnd.smesh.artifact-manifest+json"), NoFields)))
  }

  function FactsOf(media: string, contentDigest: string, size: nat, manifestDigest: string, href: string): Json {
    Obj(Field(KContentDigest, Str(contentDigest), Field(KManifestDigest, Str(manifestDigest),
        Field(KMediaType, Str(media), Field(KResolver, Str(href),
        Field(KSchema, Str(PROJECTION_SCHEMA), Field(KSizeBytes, Num(size), NoFields)))))))
  }

  function ExtensionList(): Json {
    Arr(Item(Str("https://smesh.dev/extensions/artifact-manifest/v1"), NoItems))
  }

  function Presentation(id: string, description: Option<string>, name: Option<string>, part: Json, facts: Json): Json {
    var extensions := ExtensionList();
    var parts := Field(KParts, Arr(Item(part, NoItems)), NoFields);
    var metadata := Obj(Field(KSmeshArtifact, facts, NoFields));
    Obj(Field(KArtifactId, Str(id), Optional(KDescription, description,
        Field(KExtensions, extensions, Field(KMetadata, metadata, Optional(KName, name, parts))))))
  }

  // The presentation of a manifest with these facts.
  function Shown(id: string, name: Option<string>, description: Option<string>, media: string,
                 contentDigest: string, size: nat, manifestDigest: string): Json {
    var href := "/artifacts/v1/" + id;
    Presentation(id, description, name, PartOf(id, media, contentDigest, size, href),
                 FactsOf(media, contentDigest, size, manifestDigest, href))
  }
}
