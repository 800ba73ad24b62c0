/**
 What extraction reads, told from the writer's side: which objects say which parts and artifacts, what is read
 of anything written, and that a document yields exactly what is written in it, in order.
 */
module InlineReading {
  import opened Options
  import opened IdealCrypto
  import opened InlineArtifacts
  import opened InlineSurvival

  // ----- Parts -----

  datatype Content = TextBody(text: string) | RawBody(bytes: Bytes) | DataBody(value: Json) | Link(url: string)

  datatype Source = Source(content: Content, mediaType: Option<string>, filename: Option<string>)

  // The member is there with just this value, or not there at all.
  predicate Just(f: Fields, k: Name, v: Option<Json>) { Get(f, k) == v }

  // The member is this text, and for `None` it is missing or no text.
  predicate Texted(f: Fields, k: Name, t: Option<string>) {
    if t.Some? then Get(f, k) == Some(Str(t.value)) else Get(f, k).None? || !Get(f, k).value.Str?
  }

  // The object has one of the four bodies, that of the source, and its media type and file name.
  ghost predicate Spells(c: Codec, v: Json, s: Source) {
    && v.Obj? && Texted(v.fields, KMediaType, s.mediaType) && Texted(v.fields, KFilename, s.filename)
    && Just(v.fields, KText, if s.content.TextBody? then Some(Str(s.content.text)) else None)
    && Just(v.fields, KData, if s.content.DataBody? then Some(s.content.value) else None)
    && Just(v.fields, KUrl, if s.content.Link? then Some(Str(s.content.url)) else None)
    && (if s.content.RawBody?
        then exists t :: Just(v.fields, KRaw, Some(Str(t))) && c.base64(t) == Some(s.content.bytes)
        else Just(v.fields, KRaw, None))
  }

  function PartOf(c: Codec, s: Source): Part
    requires !s.content.Link?
  {
    match s.content
    case TextBody(text) => Part(Text, c.utf8(text), s.mediaType, s.filename)
    case RawBody(bytes) => Part(Raw, bytes, s.mediaType, s.filename)
    case DataBody(value) => Part(Data, c.canonical(value), s.mediaType, s.filename)
  }

  function With(c: Codec, acc: Parts, s: Source): Parts {
    if s.content.Link? then acc.(urls := acc.urls + [s.content.url]) else acc.(inline := acc.inline + [PartOf(c, s)])
  }

  // The one source that an object can spell.
  function Spelled(c: Codec, v: Json): Option<Source> {
    if !v.Obj? then None
    else
      var f := v.fields;
      var content :=
        match (Get(f, KText), Get(f, KRaw), Get(f, KData), Get(f, KUrl))
        case (Some(Str(t)), None, None, None) => Some(TextBody(t))
        case (None, Some(Str(t)), None, None) =>
          if c.base64(t).Some? then Some(RawBody(c.base64(t).value)) else None
        case (None, None, Some(d), None) => Some(DataBody(d))
        case (None, None, None, Some(Str(t))) => Some(Link(t))
        case _ => None;
      if content.Some? then Some(Source(content.value, GetText(f, KMediaType), GetText(f, KFilename))) else None
  }

  lemma SpelledIff(c: Codec, v: Json, s: Source)
    ensures Spells(c, v, s) <==> Spelled(c, v) == Some(s)
  {
    if Spelled(c, v) == Some(s) && s.content.RawBody? {
      var t := Get(v.fields, KRaw).value.s;
      assert Just(v.fields, KRaw, Some(Str(t))) && c.base64(t) == Some(s.content.bytes);
    }
  }

  lemma PartIsSpelled(c: Codec, v: Json, acc: Parts)
    ensures AddPart(c, v, acc) == if Spelled(c, v).Some? then Ok(With(c, acc, Spelled(c, v).value)) else Err
  {
  }

  /** A part is read if and only if it spells a source, and then as that source says: texts as their UTF-8 bytes,
      raw parts decoded, data serialised, links as they are. */
  lemma PartIsReadIff(c: Codec, v: Json, acc: Parts)
    ensures AddPart(c, v, acc).Ok? <==> exists s :: Spells(c, v, s)
    ensures forall s | Spells(c, v, s) :: AddPart(c, v, acc) == Ok(With(c, acc, s))
  {
    PartIsSpelled(c, v, acc);
    forall s ensures Spells(c, v, s) <==> Spelled(c, v) == Some(s) { SpelledIff(c, v, s); }
    if Spelled(c, v).Some? { assert Spells(c, v, Spelled(c, v).value); }
  }

  // ----- Lists of parts -----

  ghost predicate SpellsAll(c: Codec, items: Items, list: seq<Source>) {
    match items
    case NoItems => list == []
    case Item(v, rest) => list != [] && Spells(c, v, list[0]) && SpellsAll(c, rest, list[1..])
  }

  function WithAll(c: Codec, acc: Parts, list: seq<Source>): Parts
    decreases |list|
  {
    if list == [] then acc else WithAll(c, With(c, acc, list[0]), list[1..])
  }

  lemma {:induction false} PartsAreRead(c: Codec, items: Items, list: seq<Source>, acc: Parts)
    requires SpellsAll(c, items, list)
    ensures ReadParts(c, items, acc) == Ok(WithAll(c, acc, list))
  {
    if items.Item? {
      PartIsReadIff(c, items.head, acc);
      PartsAreRead(c, items.rest, list[1..], With(c, acc, list[0]));
    }
  }

  lemma {:induction false} ReadPartsAreSpelled(c: Codec, items: Items, acc: Parts) returns (list: seq<Source>)
    requires ReadParts(c, items, acc).Ok?
    ensures SpellsAll(c, items, list)
  {
    if items.NoItems? {
      list := [];
    } else {
      PartIsReadIff(c, items.head, acc);
      var s :| Spells(c, items.head, s);
      var rest := ReadPartsAreSpelled(c, items.rest, With(c, acc, s));
      list := [s] + rest;
      assert list[1..] == rest;
    }
  }

  // The parts that carry content, and the links, each in order.
  function InlineOf(c: Codec, list: seq<Source>): seq<Part> {
    if list == [] then []
    else (if list[0].content.Link? then [] else [PartOf(c, list[0])]) + InlineOf(c, list[1..])
  }

  function UrlsOf(list: seq<Source>): seq<string> {
    if list == [] then [] else (if list[0].content.Link? then [list[0].content.url] else []) + UrlsOf(list[1..])
  }

  lemma {:induction false} WithAllAppends(c: Codec, acc: Parts, list: seq<Source>)
    ensures WithAll(c, acc, list) == Parts(acc.inline + InlineOf(c, list), acc.urls + UrlsOf(list))
    decreases |list|
  {
    if list != [] {
      var rest := list[1..];
      WithAllAppends(c, With(c, acc, list[0]), rest);
      if list[0].content.Link? {
        assert acc.urls + [list[0].content.url] + UrlsOf(rest) == acc.urls + UrlsOf(list);
      } else {
        assert acc.inline + [PartOf(c, list[0])] + InlineOf(c, rest) == acc.inline + InlineOf(c, list);
      }
    }
  }

  // ----- Artifacts -----

  datatype Writing = Writing(id: string, name: Option<string>, description: Option<string>, sources: seq<Source>)

  function ArtifactOf(c: Codec, w: Writing): Artifact {
    Artifact(w.id, w.name, w.description, InlineOf(c, w.sources), UrlsOf(w.sources))
  }

  ghost predicate SpellsArtifact(c: Codec, f: Fields, w: Writing) {
    && Just(f, KArtifactId, Some(Str(w.id))) && Texted(f, KName, w.name) && Texted(f, KDescription, w.description)
    && exists items :: Just(f, KParts, Some(Arr(items))) && SpellsAll(c, items, w.sources)
  }

  // The object bears the mark of a projection.
  ghost predicate Marked(f: Fields) {
    exists m, a ::
      && Just(f, KMetadata, Some(Obj(m))) && Just(m, KSmeshArtifact, Some(Obj(a)))
      && Just(a, KSchema, Some(Str(PROJECTION_SCHEMA)))
  }

  lemma MarkedIff(f: Fields)
    ensures Marked(f) <==> Projected(f)
  {
    if Projected(f) {
      var m := Get(f, KMetadata).value;
      var a := Get(m.fields, KSmeshArtifact).value;
      assert Just(f, KMetadata, Some(Obj(m.fields))) && Just(m.fields, KSmeshArtifact, Some(Obj(a.fields)));
      assert Just(a.fields, KSchema, Some(Str(PROJECTION_SCHEMA)));
    }
  }

  // Content is there that a valid id can be given to.
  predicate Extractable(c: Codec, w: Writing) { InlineOf(c, w.sources) != [] && ValidId(w.id) }

  lemma WritingIsRead(c: Codec, f: Fields, w: Writing)
    requires SpellsArtifact(c, f, w) && !Marked(f)
    ensures Read(c, f) == if InlineOf(c, w.sources) == [] then Descend
                          else if ValidId(w.id) then Leaf(ArtifactOf(c, w)) else Bad
  {
    MarkedIff(f);
    SpelledPartsAreRead(c, f, w);
    TextedIff(f, KName, w.name);
    TextedIff(f, KDescription, w.description);
    WritingReads(c, f, Parts(InlineOf(c, w.sources), UrlsOf(w.sources)));
  }

  lemma TextedIff(f: Fields, k: Name, t: Option<string>)
    ensures Texted(f, k, t) <==> GetText(f, k) == t
  {
  }

  lemma PartsReadAs(c: Codec, items: Items, list: seq<Source>)
    requires SpellsAll(c, items, list)
    ensures ReadParts(c, items, Parts([], [])) == Ok(Parts(InlineOf(c, list), UrlsOf(list)))
  {
    PartsAreRead(c, items, list, Parts([], []));
    WithAllAppends(c, Parts([], []), list);
    assert [] + InlineOf(c, list) == InlineOf(c, list) && [] + UrlsOf(list) == UrlsOf(list);
  }

  lemma SpelledPartsAreRead(c: Codec, f: Fields, w: Writing)
    requires SpellsArtifact(c, f, w)
    ensures Shaped(f) && IdOf(f) == w.id
    ensures ReadParts(c, PartsOf(f), Parts([], [])) == Ok(Parts(InlineOf(c, w.sources), UrlsOf(w.sources)))
  {
    var items :| Just(f, KParts, Some(Arr(items))) && SpellsAll(c, items, w.sources);
    PartsReadAs(c, items, w.sources);
    SpelledIsShaped(f, w.id, items);
  }

  lemma SpelledIsShaped(f: Fields, id: string, items: Items)
    requires Just(f, KArtifactId, Some(Str(id))) && Just(f, KParts, Some(Arr(items)))
    ensures Shaped(f) && IdOf(f) == id && PartsOf(f) == items
  {
  }

  lemma WritingReads(c: Codec, f: Fields, read: Parts)
    requires Shaped(f) && !Projected(f) && ReadParts(c, PartsOf(f), Parts([], [])) == Ok(read)
    ensures Read(c, f) ==
            if read.inline == [] then Descend
            else if !ValidId(IdOf(f)) then Bad
            else Leaf(Artifact(IdOf(f), GetText(f, KName), GetText(f, KDescription), read.inline, read.urls))
  {
  }

  lemma LeafIsWritten(c: Codec, f: Fields) returns (w: Writing)
    requires Shaped(f) && !Projected(f) && ReadParts(c, PartsOf(f), Parts([], [])).Ok?
    ensures SpellsArtifact(c, f, w)
  {
    var list := ReadPartsAreSpelled(c, PartsOf(f), Parts([], []));
    w := Writing(IdOf(f), GetText(f, KName), GetText(f, KDescription), list);
    assert Just(f, KParts, Some(Arr(PartsOf(f))));
  }

  /** An object is taken for an artifact if and only if it spells one that can be extracted, and for that one. */
  lemma ReadIffWritten(c: Codec, f: Fields, a: Artifact)
    ensures Read(c, f) == Leaf(a) <==>
            !Marked(f) && exists w :: SpellsArtifact(c, f, w) && Extractable(c, w) && a == ArtifactOf(c, w)
  {
    MarkedIff(f);
    if Read(c, f) == Leaf(a) {
      var w := LeafIsWritten(c, f);
      WritingIsRead(c, f, w);
      assert SpellsArtifact(c, f, w) && Extractable(c, w) && a == ArtifactOf(c, w);
    }
    if !Marked(f) && exists w :: SpellsArtifact(c, f, w) && Extractable(c, w) && a == ArtifactOf(c, w) {
      var w :| SpellsArtifact(c, f, w) && Extractable(c, w) && a == ArtifactOf(c, w);
      WritingIsRead(c, f, w);
    }
  }

  // An id and a list of parts, without the mark of a projection.
  ghost predicate Claims(f: Fields) {
    && !Marked(f) && (exists id :: Just(f, KArtifactId, Some(Str(id))))
    && exists items :: Just(f, KParts, Some(Arr(items)))
  }

  lemma ClaimsIff(f: Fields)
    ensures Claims(f) <==> Shaped(f) && !Projected(f)
  {
    MarkedIff(f);
    if Shaped(f) {
      assert Just(f, KArtifactId, Some(Str(IdOf(f)))) && Just(f, KParts, Some(Arr(PartsOf(f))));
    }
  }

  /** An object is passed over if and only if it has an id and a list of parts and bears the mark. */
  lemma PassedOverIff(c: Codec, f: Fields)
    ensures Read(c, f).Skip? <==>
            && Marked(f) && (exists id :: Just(f, KArtifactId, Some(Str(id))))
            && exists items :: Just(f, KParts, Some(Arr(items)))
  {
    MarkedIff(f);
    if Shaped(f) {
      assert Just(f, KArtifactId, Some(Str(IdOf(f)))) && Just(f, KParts, Some(Arr(PartsOf(f))));
    }
  }

  /** Reading an object fails if and only if it claims to be an artifact and either spells none or has content
      under an id that is not valid. */
  lemma FailsIff(c: Codec, f: Fields)
    ensures Read(c, f).Bad? <==>
            Claims(f) && forall w | SpellsArtifact(c, f, w) :: InlineOf(c, w.sources) != [] && !ValidId(w.id)
  {
    ClaimsIff(f);
    if Shaped(f) && !Projected(f) {
      forall w | SpellsArtifact(c, f, w)
        ensures Read(c, f).Bad? <==> InlineOf(c, w.sources) != [] && !ValidId(w.id)
      {
        WritingIsRead(c, f, w);
      }
      if ReadParts(c, PartsOf(f), Parts([], [])).Ok? {
        var w := LeafIsWritten(c, f);
        assert Read(c, f).Bad? <==> InlineOf(c, w.sources) != [] && !ValidId(w.id);
      }
    }
  }

  /** A valid id is one segment of a path as it stands: nothing in it is reserved or escaped, and it is neither the
      current nor the parent directory. So the address in a projection leads to that artifact and no other. */
  lemma ValidIdIsASegment(id: string)
    ensures ValidId(id) <==>
            && 0 < |id| && |id| <= 256 && id !in {".", ".."}
            && forall ch | ch in id :: ch in "-._~" || 'A' <= ch <= 'Z' || 'a' <= ch <= 'z' || '0' <= ch <= '9'
    ensures ValidId(id) ==> forall ch | ch in "/?#%:@!$&'()*+,;=" :: ch !in id
  {
    forall i | 0 <= i < |id| ensures id[i] in id {}
    if ValidId(id) { forall ch | ch in id ensures IdByte(ch) { var i :| 0 <= i < |id| && id[i] == ch; } }
  }

  // ----- Writing -----

  function Maybe(k: Name, t: Option<string>, more: Fields): Fields {
    if t.Some? then Field(k, Str(t.value), more) else more
  }

  function WritePart(c: Codec, s: Source): Json {
    var rest := Maybe(KMediaType, s.mediaType, Maybe(KFilename, s.filename, NoFields));
    Obj(match s.content
        case TextBody(text) => Field(KText, Str(text), rest)
        case RawBody(bytes) => Field(KRaw, Str(c.encode64(bytes)), rest)
        case DataBody(value) => Field(KData, value, rest)
        case Link(url) => Field(KUrl, Str(url), rest))
  }

  function WriteParts(c: Codec, list: seq<Source>): Items {
    if list == [] then NoItems else Item(WritePart(c, list[0]), WriteParts(c, list[1..]))
  }

  function Write(c: Codec, w: Writing): Json {
    var rest := Maybe(KName, w.name, Maybe(KDescription, w.description, NoFields));
    Obj(Field(KArtifactId, Str(w.id), Field(KParts, Arr(WriteParts(c, w.sources)), rest)))
  }

  ghost predicate Decodes(c: Codec) { forall b :: c.base64(c.encode64(b)) == Some(b) }

  lemma MaybeGets(k: Name, t: Option<string>, more: Fields, j: Name)
    ensures Get(Maybe(k, t, more), j) == if t.Some? && j == k then Some(Str(t.value)) else Get(more, j)
  {
  }

  lemma OptionalsGet(k: Name, t: Option<string>, l: Name, u: Option<string>, j: Name)
    requires k != l
    ensures Get(Maybe(k, t, Maybe(l, u, NoFields)), j) ==
            if t.Some? && j == k then Some(Str(t.value)) else if u.Some? && j == l then Some(Str(u.value)) else None
  {
    MaybeGets(k, t, Maybe(l, u, NoFields), j);
    MaybeGets(l, u, NoFields, j);
    assert Get(NoFields, j) == None;
  }

  lemma WrittenPartSpells(c: Codec, s: Source)
    requires Decodes(c)
    ensures Spells(c, WritePart(c, s), s)
  {
    var rest, f := Maybe(KMediaType, s.mediaType, Maybe(KFilename, s.filename, NoFields)), WritePart(c, s).fields;
    forall j ensures Get(rest, j) ==
                     if s.mediaType.Some? && j == KMediaType then Some(Str(s.mediaType.value))
                     else if s.filename.Some? && j == KFilename then Some(Str(s.filename.value)) else None
    {
      OptionalsGet(KMediaType, s.mediaType, KFilename, s.filename, j);
    }
    forall j ensures Get(f, j) == if j == f.name then Some(f.value) else Get(rest, j) {}
    if s.content.RawBody? {
      assert Just(f, KRaw, Some(Str(c.encode64(s.content.bytes))));
      assert c.base64(c.encode64(s.content.bytes)) == Some(s.content.bytes);
    }
  }

  lemma {:induction false} WrittenPartsSpell(c: Codec, list: seq<Source>)
    requires Decodes(c)
    ensures SpellsAll(c, WriteParts(c, list), list)
  {
    if list != [] { WrittenPartSpells(c, list[0]); WrittenPartsSpell(c, list[1..]); }
  }

  lemma HeadGets(id: Json, items: Json, rest: Fields, j: Name)
    ensures Get(Field(KArtifactId, id, Field(KParts, items, rest)), j) ==
            if j == KArtifactId then Some(id) else if j == KParts then Some(items) else Get(rest, j)
  {
    assert Get(Field(KParts, items, rest), j) == if j == KParts then Some(items) else Get(rest, j);
  }

  lemma WrittenSpells(c: Codec, w: Writing)
    requires Decodes(c)
    ensures SpellsArtifact(c, Write(c, w).fields, w) && !Marked(Write(c, w).fields)
  {
    var id, items := Str(w.id), Arr(WriteParts(c, w.sources));
    var rest := Maybe(KName, w.name, Maybe(KDescription, w.description, NoFields));
    var f := Field(KArtifactId, id, Field(KParts, items, rest));
    HeadGets(id, items, rest, KArtifactId);
    HeadGets(id, items, rest, KParts);
    HeadGets(id, items, rest, KName);
    HeadGets(id, items, rest, KDescription);
    HeadGets(id, items, rest, KMetadata);
    OptionalsGet(KName, w.name, KDescription, w.description, KName);
    OptionalsGet(KName, w.name, KDescription, w.description, KDescription);
    OptionalsGet(KName, w.name, KDescription, w.description, KMetadata);
    WrittenPartsSpell(c, w.sources);
    assert Just(f, KParts, Some(Arr(WriteParts(c, w.sources))));
  }

  /** The round trip: any artifact with some content and a valid id, written as JSON and extracted, comes back with
      its id, name, description, parts and links, in order, raw parts through base64 and back. */
  lemma WriteThenExtract(c: Codec, w: Writing)
    requires Decodes(c) && Extractable(c, w)
    ensures Extract(c, Write(c, w)) == Ok([ArtifactOf(c, w)])
  {
    WrittenSpells(c, w);
    WritingIsRead(c, Write(c, w).fields, w);
    LeafIsExtracted(c, Write(c, w), ArtifactOf(c, w));
  }

  lemma LeafIsExtracted(c: Codec, v: Json, a: Artifact)
    requires v.Obj? && Read(c, v.fields) == Leaf(a)
    ensures Extract(c, v) == Ok([a])
  {
  }

  // ----- Documents -----

  // The place leads, through arrays and through objects that are none themselves, to an object read like this.
  predicate Leads(c: Codec, v: Json, place: seq<nat>, r: Reading)
    decreases v
  {
    match v
    case Obj(f) =>
      if place == [] then Read(c, f) == r else Read(c, f).Descend? && LeadsFields(c, f, place[0], place[1..], r)
    case Arr(items) => place != [] && LeadsItems(c, items, place[0], place[1..], r)
    case _ => false
  }

  predicate LeadsItems(c: Codec, items: Items, i: nat, place: seq<nat>, r: Reading)
    decreases items
  {
    match items
    case NoItems => false
    case Item(v, rest) => if i == 0 then Leads(c, v, place, r) else LeadsItems(c, rest, i - 1, place, r)
  }

  predicate LeadsFields(c: Codec, f: Fields, i: nat, place: seq<nat>, r: Reading)
    decreases f
  {
    match f
    case NoFields => false
    case Field(_, v, more) => if i == 0 then Leads(c, v, place, r) else LeadsFields(c, more, i - 1, place, r)
  }

  ghost predicate FindsIn(c: Codec, v: Json, at: seq<nat>, list: seq<Found>, x: Found) {
    x in list <==> at <= x.place && Leads(c, v, x.place[|at|..], Leaf(x.artifact))
  }

  ghost predicate FindsInItems(c: Codec, items: Items, at: seq<nat>, i: nat, list: seq<Found>, x: Found) {
    x in list <==>
      From(at, i, x) && LeadsItems(c, items, x.place[|at|] - i, x.place[|at| + 1..], Leaf(x.artifact))
  }

  ghost predicate FindsInFields(c: Codec, f: Fields, at: seq<nat>, i: nat, list: seq<Found>, x: Found) {
    x in list <==>
      From(at, i, x) && LeadsFields(c, f, x.place[|at|] - i, x.place[|at| + 1..], Leaf(x.artifact))
  }

  lemma {:induction false} LocateFinds(c: Codec, v: Json, at: seq<nat>, x: Found)
    requires Locate(c, v, at).Ok?
    ensures FindsIn(c, v, at, Locate(c, v, at).value, x)
  {
    match v
    case Obj(f) =>
      if Read(c, f).Descend? { LocateFieldsFinds(c, f, at, 0, x); }
      if at <= x.place && |x.place| == |at| { assert x.place == at; }
    case Arr(items) => LocateItemsFinds(c, items, at, 0, x);
    case _ =>
  }

  lemma {:induction false} LocateItemsFinds(c: Codec, items: Items, at: seq<nat>, i: nat, x: Found)
    requires LocateItems(c, items, at, i).Ok?
    ensures FindsInItems(c, items, at, i, LocateItems(c, items, at, i).value, x)
  {
    if items.Item? {
      LocateFinds(c, items.head, at + [i], x);
      LocateItemsFinds(c, items.rest, at, i + 1, x);
      if From(at, i, x) && x.place[|at|] == i { assert at + [i] <= x.place; }
    }
  }

  lemma {:induction false} LocateFieldsFinds(c: Codec, f: Fields, at: seq<nat>, i: nat, x: Found)
    requires LocateFields(c, f, at, i).Ok?
    ensures FindsInFields(c, f, at, i, LocateFields(c, f, at, i).value, x)
  {
    if f.Field? {
      LocateFinds(c, f.value, at + [i], x);
      LocateFieldsFinds(c, f.more, at, i + 1, x);
      if From(at, i, x) && x.place[|at|] == i { assert at + [i] <= x.place; }
    }
  }

  /** What extraction with places finds is exactly the artifacts that places lead to. */
  lemma FoundIff(c: Codec, v: Json, place: seq<nat>, a: Artifact)
    requires Locate(c, v, []).Ok?
    ensures Found(place, a) in Locate(c, v, []).value <==> Leads(c, v, place, Leaf(a))
  {
    LocateFinds(c, v, [], Found(place, a));
    assert place[0..] == place;
  }

  // ----- Failure -----

  lemma {:induction false} BadIsMet(c: Codec, v: Json, at: seq<nat>) returns (place: seq<nat>)
    requires Locate(c, v, at).Err?
    ensures Leads(c, v, place, Bad)
  {
    match v
    case Obj(f) =>
      if Read(c, f).Bad? {
        place := [];
      } else {
        var i, rest := BadFieldIsMet(c, f, at, 0);
        place := [i] + rest;
        assert place[1..] == rest;
      }
    case Arr(items) =>
      var i, rest := BadItemIsMet(c, items, at, 0);
      place := [i] + rest;
      assert place[1..] == rest;
  }

  lemma {:induction false} BadItemIsMet(c: Codec, items: Items, at: seq<nat>, n: nat)
    returns (i: nat, place: seq<nat>)
    requires LocateItems(c, items, at, n).Err?
    ensures LeadsItems(c, items, i, place, Bad)
  {
    if Locate(c, items.head, at + [n]).Err? {
      i := 0;
      place := BadIsMet(c, items.head, at + [n]);
    } else {
      i, place := BadItemIsMet(c, items.rest, at, n + 1);
      i := i + 1;
    }
  }

  lemma {:induction false} BadFieldIsMet(c: Codec, f: Fields, at: seq<nat>, n: nat)
    returns (i: nat, place: seq<nat>)
    requires LocateFields(c, f, at, n).Err?
    ensures LeadsFields(c, f, i, place, Bad)
  {
    if Locate(c, f.value, at + [n]).Err? {
      i := 0;
      place := BadIsMet(c, f.value, at + [n]);
    } else {
      i, place := BadFieldIsMet(c, f.more, at, n + 1);
      i := i + 1;
    }
  }

  lemma {:induction false} BadFails(c: Codec, v: Json, at: seq<nat>, place: seq<nat>)
    requires Leads(c, v, place, Bad)
    ensures Locate(c, v, at).Err?
  {
    match v
    case Obj(f) => if place != [] { BadFieldFails(c, f, at, 0, place[0], place[1..]); }
    case Arr(items) => BadItemFails(c, items, at, 0, place[0], place[1..]);
  }

  lemma {:induction false} BadItemFails(c: Codec, items: Items, at: seq<nat>, n: nat, i: nat, place: seq<nat>)
    requires LeadsItems(c, items, i, place, Bad)
    ensures LocateItems(c, items, at, n).Err?
  {
    if i == 0 { BadFails(c, items.head, at + [n], place); }
    else { BadItemFails(c, items.rest, at, n + 1, i - 1, place); }
  }

  lemma {:induction false} BadFieldFails(c: Codec, f: Fields, at: seq<nat>, n: nat, i: nat, place: seq<nat>)
    requires LeadsFields(c, f, i, place, Bad)
    ensures LocateFields(c, f, at, n).Err?
  {
    if i == 0 { BadFails(c, f.value, at + [n], place); }
    else { BadFieldFails(c, f.more, at, n + 1, i - 1, place); }
  }

  predicate Breaks(c: Codec, v: Json, place: seq<nat>) { Leads(c, v, place, Bad) }

  /** Extraction fails if and only if some place leads to an object that cannot be read. */
  lemma ExtractionFailsIff(c: Codec, v: Json)
    ensures Extract(c, v).Err? <==> exists place :: Breaks(c, v, place)
  {
    LocateIsExtract(c, v, []);
    if Extract(c, v).Err? {
      var place := BadIsMet(c, v, []);
      assert Breaks(c, v, place);
    } else {
      forall place ensures !Breaks(c, v, place) { if Breaks(c, v, place) { BadFails(c, v, [], place); } }
    }
  }

  // ----- Order -----

  // At the first position where the places part, the one comes before the other.
  ghost predicate Precedes(x: Found, y: Found) {
    exists k :: 0 <= k < |x.place| && k < |y.place| && x.place[..k] == y.place[..k] && x.place[k] < y.place[k]
  }

  ghost predicate InOrder(list: seq<Found>) { forall i, j | 0 <= i < j < |list| :: Precedes(list[i], list[j]) }

  lemma JoinInOrder(at: seq<nat>, i: nat, x: seq<Found>, y: seq<Found>)
    requires InOrder(x) && InOrder(y) && AllInside(at + [i], Ok(x)) && AllFrom(at, i + 1, Ok(y))
    ensures InOrder(x + y)
  {
    var list := x + y;
    forall m, n | 0 <= m < n < |list| ensures Precedes(list[m], list[n]) {
      if n < |x| {
        assert Precedes(x[m], x[n]);
      } else if m >= |x| {
        assert Precedes(y[m - |x|], y[n - |x|]);
      } else {
        assert Inside(at + [i], x[m]) && From(at, i + 1, y[n - |x|]);
        assert x[m].place[..|at|] == at && y[n - |x|].place[..|at|] == at && x[m].place[|at|] == i;
      }
    }
  }

  lemma {:induction false} LocatesInOrder(c: Codec, v: Json, at: seq<nat>)
    ensures Locate(c, v, at).Ok? ==> InOrder(Locate(c, v, at).value)
  {
    match v
    case Obj(f) => if Read(c, f).Descend? { LocatesFieldsInOrder(c, f, at, 0); }
    case Arr(items) => LocatesItemsInOrder(c, items, at, 0);
    case _ =>
  }

  lemma {:induction false} LocatesItemsInOrder(c: Codec, items: Items, at: seq<nat>, i: nat)
    ensures LocateItems(c, items, at, i).Ok? ==> InOrder(LocateItems(c, items, at, i).value)
  {
    if items.Item? && LocateItems(c, items, at, i).Ok? {
      LocatesInOrder(c, items.head, at + [i]);
      LocatesItemsInOrder(c, items.rest, at, i + 1);
      LocatesInside(c, items.head, at + [i]);
      LocatesItemsFrom(c, items.rest, at, i + 1);
      JoinInOrder(at, i, Locate(c, items.head, at + [i]).value, LocateItems(c, items.rest, at, i + 1).value);
    }
  }

  lemma {:induction false} LocatesFieldsInOrder(c: Codec, f: Fields, at: seq<nat>, i: nat)
    ensures LocateFields(c, f, at, i).Ok? ==> InOrder(LocateFields(c, f, at, i).value)
  {
    if f.Field? && LocateFields(c, f, at, i).Ok? {
      LocatesInOrder(c, f.value, at + [i]);
      LocatesFieldsInOrder(c, f.more, at, i + 1);
      LocatesInside(c, f.value, at + [i]);
      LocatesFieldsFrom(c, f.more, at, i + 1);
      JoinInOrder(at, i, Locate(c, f.value, at + [i]).value, LocateFields(c, f.more, at, i + 1).value);
    }
  }

  /** Extraction is exact: the list is that of the artifacts that places lead to, each once, in the order of the
      document. */
  lemma ExtractionIsExact(c: Codec, v: Json) returns (list: seq<Found>)
    requires Extract(c, v).Ok?
    ensures Extract(c, v).value == Artifacts(list) && InOrder(list)
    ensures forall place, a :: Found(place, a) in list <==> Leads(c, v, place, Leaf(a))
  {
    LocateIsExtract(c, v, []);
    list := Locate(c, v, []).value;
    LocatesInOrder(c, v, []);
    forall place, a ensures Found(place, a) in list <==> Leads(c, v, place, Leaf(a)) { FoundIff(c, v, place, a); }
  }
}
