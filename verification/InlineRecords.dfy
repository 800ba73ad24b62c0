/**
 What a migration stores of an inline artifact: the manifest's name, description and media type and the
 canonical bytes. And what it does not store.
 */
module InlineRecords {
  import opened Options
  import opened IdealCrypto
  import opened InlineArtifacts

  datatype Record = Record(id: string, name: string, description: Option<string>, mediaType: string, bytes: Bytes)

  // `normalize` parses and lower-cases a media type, or refuses it.
  datatype Store = Store(codec: Codec, normalize: string -> Option<string>, maxBytes: nat, generation: string)

  const MAX_NAME_BYTES: nat := 255
  const MAX_DESCRIPTION_BYTES: nat := 4096
  const ENVELOPE_MEDIA_TYPE := "application/vnd.smesh.inline-artifact+json"

  // ----- Canonical bytes -----

  // One part and no link: its bytes are stored as they are.
  predicate Single(a: Artifact) { |a.parts| == 1 && a.urls == [] }

  function KindText(k: Kind): string { match k case Text => "text" case Raw => "raw" case Data => "data" }

  function TextOrNull(v: Option<string>): Json { if v.Some? then Str(v.value) else Null }

  function PartEnvelope(c: Codec, part: Part): Json {
    Obj(Field(Other("bytesBase64"), Str(c.encode64(part.bytes)), Field(KFilename, TextOrNull(part.filename),
        Field(Other("kind"), Str(KindText(part.kind)), Field(KMediaType, TextOrNull(part.mediaType), NoFields)))))
  }

  function PartEnvelopes(c: Codec, parts: seq<Part>): Items {
    if parts == [] then NoItems else Item(PartEnvelope(c, parts[0]), PartEnvelopes(c, parts[1..]))
  }

  function Texts(list: seq<string>): Items {
    if list == [] then NoItems else Item(Str(list[0]), Texts(list[1..]))
  }

  function Envelope(c: Codec, a: Artifact): Json {
    Obj(Field(Other("inertUrls"), Arr(Texts(a.urls)), Field(KParts, Arr(PartEnvelopes(c, a.parts)),
        Field(KSchema, Str("smesh-inline-artifact-envelope/v1"), NoFields))))
  }

  function CanonicalBytes(c: Codec, a: Artifact): Bytes {
    if Single(a) then a.parts[0].bytes else c.canonical(Envelope(c, a))
  }

  // ----- The record -----

  predicate Control(ch: char) { ch < ' ' || '\U{7F}' <= ch <= '\U{9F}' }

  predicate Visible(c: Codec, text: string, max: nat) {
    text != "" && |c.utf8(text)| <= max && forall i | 0 <= i < |text| ::
      !Control(text[i]) && text[i] != '/' && text[i] != '\\'
  }

  function NameOf(a: Artifact): string { if a.name.Some? then a.name.value else a.id }

  // Nothing, where the manifest or the store refuses the artifact.
  function RecordOf(s: Store, a: Artifact): Option<Record> {
    var media, bytes := s.normalize(MediaTypeOf(a)), CanonicalBytes(s.codec, a);
    if media.None? || !Visible(s.codec, NameOf(a), MAX_NAME_BYTES) then None
    else if a.description.Some? && !Visible(s.codec, a.description.value, MAX_DESCRIPTION_BYTES) then None
    else if |bytes| > s.maxBytes then None
    else Some(Record(a.id, NameOf(a), a.description, media.value, bytes))
  }

  // ----- What the record tells -----

  ghost predicate Lawful(c: Codec) { Injective(c) && forall b :: c.base64(c.encode64(b)) == Some(b) }

  lemma PartEnvelopeTells(c: Codec, x: Part, y: Part)
    requires Lawful(c) && PartEnvelope(c, x) == PartEnvelope(c, y)
    ensures x == y
  {
    assert c.base64(c.encode64(x.bytes)) == c.base64(c.encode64(y.bytes));
  }

  lemma {:induction false} PartEnvelopesTell(c: Codec, x: seq<Part>, y: seq<Part>)
    requires Lawful(c) && PartEnvelopes(c, x) == PartEnvelopes(c, y)
    ensures x == y
  {
    if x != [] && y != [] {
      PartEnvelopeTells(c, x[0], y[0]);
      PartEnvelopesTell(c, x[1..], y[1..]);
      assert x == [x[0]] + x[1..] && y == [y[0]] + y[1..];
    }
  }

  lemma {:induction false} TextsTell(x: seq<string>, y: seq<string>)
    requires Texts(x) == Texts(y)
    ensures x == y
  {
    if x != [] && y != [] {
      TextsTell(x[1..], y[1..]);
      assert x == [x[0]] + x[1..] && y == [y[0]] + y[1..];
    }
  }

  // ----- The envelope describes itself -----

  function KindOf(v: Option<Json>): Option<Kind> {
    match v
    case Some(Str(s)) => if s == "text" then Some(Text) else if s == "raw" then Some(Raw)
                         else if s == "data" then Some(Data) else None
    case _ => None
  }

  // A reader of envelopes, by the names of their members.
  function OpenPart(c: Codec, v: Json): Option<Part> {
    var kind, bytes := KindOf(Member(v, Other("kind"))), AsText(Member(v, Other("bytesBase64")));
    if kind.None? || bytes.None? || c.base64(bytes.value).None? then None
    else Some(Part(kind.value, c.base64(bytes.value).value, AsText(Member(v, KMediaType)),
                   AsText(Member(v, KFilename))))
  }

  function OpenParts(c: Codec, items: Items): Option<seq<Part>> {
    match items
    case NoItems => Some([])
    case Item(v, rest) =>
      var first, others := OpenPart(c, v), OpenParts(c, rest);
      if first.None? || others.None? then None else Some([first.value] + others.value)
  }

  function OpenTexts(items: Items): Option<seq<string>> {
    match items
    case NoItems => Some([])
    case Item(v, rest) =>
      var others := OpenTexts(rest);
      if !v.Str? || others.None? then None else Some([v.s] + others.value)
  }

  function OpenEnvelope(c: Codec, v: Json): Option<(seq<Part>, seq<string>)> {
    match (Member(v, KSchema), Member(v, KParts), Member(v, Other("inertUrls")))
    case (Some(Str(schema)), Some(Arr(parts)), Some(Arr(urls))) =>
      if schema != "smesh-inline-artifact-envelope/v1" || OpenParts(c, parts).None? || OpenTexts(urls).None? then None
      else Some((OpenParts(c, parts).value, OpenTexts(urls).value))
    case _ => None
  }

  lemma PartOpens(c: Codec, part: Part)
    requires Lawful(c)
    ensures OpenPart(c, PartEnvelope(c, part)) == Some(part)
  {
    var f := PartEnvelope(c, part).fields;
    var a, b, d := f.more, f.more.more, f.more.more.more;
    assert Other("bytesBase64") != Other("kind") by { assert "bytesBase64"[0] != "kind"[0]; }
    assert Get(f, Other("bytesBase64")) == Some(Str(c.encode64(part.bytes)));
    assert Get(f, KFilename) == Get(a, KFilename) == Some(TextOrNull(part.filename));
    assert Get(f, Other("kind")) == Get(a, Other("kind")) == Get(b, Other("kind")) == Some(Str(KindText(part.kind)));
    assert Get(f, KMediaType) == Get(a, KMediaType) == Get(b, KMediaType) == Get(d, KMediaType);
    assert "text"[0] != "raw"[0] && "text"[0] != "data"[0] && "raw"[0] != "data"[0];
    assert c.base64(c.encode64(part.bytes)) == Some(part.bytes);
  }

  lemma {:induction false} PartsOpen(c: Codec, parts: seq<Part>)
    requires Lawful(c)
    ensures OpenParts(c, PartEnvelopes(c, parts)) == Some(parts)
  {
    if parts != [] {
      PartOpens(c, parts[0]);
      PartsOpen(c, parts[1..]);
      assert parts == [parts[0]] + parts[1..];
    }
  }

  lemma {:induction false} TextsOpen(list: seq<string>)
    ensures OpenTexts(Texts(list)) == Some(list)
  {
    if list != [] {
      TextsOpen(list[1..]);
      assert list == [list[0]] + list[1..];
    }
  }

  /** An envelope that is opened by the names of its members gives back every part and every link, in order. */
  lemma EnvelopeOpens(c: Codec, a: Artifact)
    requires Lawful(c)
    ensures OpenEnvelope(c, Envelope(c, a)) == Some((a.parts, a.urls))
  {
    var f := Envelope(c, a).fields;
    assert Get(f, Other("inertUrls")) == Some(Arr(Texts(a.urls)));
    assert Get(f, KParts) == Get(f.more, KParts) == Some(Arr(PartEnvelopes(c, a.parts)));
    assert Get(f, KSchema) == Get(f.more, KSchema) == Get(f.more.more, KSchema);
    PartsOpen(c, a.parts);
    TextsOpen(a.urls);
  }

  // ----- When there is a record, and what is in it -----

  predicate Showable(ch: char) { ch !in {'/', '\\'} && '\U{20}' <= ch && !('\U{7F}' <= ch <= '\U{9F}') }

  predicate Nameable(c: Codec, text: string, max: nat) {
    && 1 <= |text| && |c.utf8(text)| <= max
    && forall ch | ch in text :: Showable(ch)
  }

  function DefaultType(k: Kind): string {
    match k
    case Text => "text/plain; charset=utf-8"
    case Raw => "application/octet-stream"
    case Data => "application/json"
  }

  // The media type that an artifact is stored under, before it is normalised.
  ghost predicate Typed(a: Artifact, media: string) {
    match (a.parts, a.urls)
    case (parts, urls) =>
      if |parts| != 1 || urls != [] then media == ENVELOPE_MEDIA_TYPE
      else parts[0].mediaType == Some(media) || (parts[0].mediaType.None? && media == DefaultType(parts[0].kind))
  }

  /** There is a record if and only if the media type can be normalised, name or id and description can be shown,
      and the bytes are few enough; a single part is stored byte for byte. */
  lemma RecordedIff(s: Store, a: Artifact)
    ensures RecordOf(s, a).Some? <==>
            && (exists media :: Typed(a, media) && s.normalize(media).Some?)
            && Nameable(s.codec, if a.name.Some? then a.name.value else a.id, 255)
            && (a.description.Some? ==> Nameable(s.codec, a.description.value, 4096))
            && |if Single(a) then a.parts[0].bytes else s.codec.canonical(Envelope(s.codec, a))| <= s.maxBytes
    ensures RecordOf(s, a).Some? ==>
              var r := RecordOf(s, a).value;
              && r.id == a.id && r.description == a.description && a.name in {None, Some(r.name)}
              && (a.name.None? ==> r.name == a.id)
              && (exists media :: Typed(a, media) && s.normalize(media) == Some(r.mediaType))
              && (Single(a) ==> r.bytes == a.parts[0].bytes)
  {
    assert Typed(a, MediaTypeOf(a)) && forall media | Typed(a, media) :: media == MediaTypeOf(a);
    VisibleIff(s.codec, NameOf(a), 255);
    if a.description.Some? { VisibleIff(s.codec, a.description.value, 4096); }
  }

  lemma VisibleIff(c: Codec, text: string, max: nat)
    ensures Visible(c, text, max) <==> Nameable(c, text, max)
  {
    if Visible(c, text, max) {
      forall ch | ch in text ensures Showable(ch) { var i :| 0 <= i < |text| && text[i] == ch; }
    }
    if Nameable(c, text, max) {
      forall i | 0 <= i < |text| ensures !Control(text[i]) && text[i] != '/' && text[i] != '\\' {
        assert Showable(text[i]);
      }
    }
  }

  // ----- Which artifacts are stored alike -----

  // The same bytes: two envelopes only of the same parts and links, and a part that spells out an envelope.
  predicate SameContent(c: Codec, a: Artifact, b: Artifact) {
    if Single(a) && Single(b) then a.parts[0].bytes == b.parts[0].bytes
    else if Single(a) then a.parts[0].bytes == c.canonical(Envelope(c, b))
    else if Single(b) then c.canonical(Envelope(c, a)) == b.parts[0].bytes
    else a.parts == b.parts && a.urls == b.urls
  }

  /** Exactly which artifacts are stored alike. */
  lemma RecordsCoincideIff(s: Store, a: Artifact, b: Artifact)
    requires Lawful(s.codec) && RecordOf(s, a).Some? && RecordOf(s, b).Some?
    ensures RecordOf(s, a) == RecordOf(s, b) <==>
            && a.id == b.id && NameOf(a) == NameOf(b) && a.description == b.description
            && s.normalize(MediaTypeOf(a)) == s.normalize(MediaTypeOf(b)) && SameContent(s.codec, a, b)
  {
    if !Single(a) && !Single(b) && Envelope(s.codec, a) == Envelope(s.codec, b) {
      PartEnvelopesTell(s.codec, a.parts, b.parts);
      TextsTell(a.urls, b.urls);
    }
  }

  // ----- What it does not tell -----

  datatype Shape = Enveloped | Alone(kind: Kind, mediaType: Option<string>, filename: Option<string>)

  datatype Form = Form(named: bool, shape: Shape)

  function FormOf(a: Artifact): Form {
    Form(a.name.Some?,
         if Single(a) then Alone(a.parts[0].kind, a.parts[0].mediaType, a.parts[0].filename) else Enveloped)
  }

  /** The record and the form together tell an artifact from all others: whether it was named, whether it
      was put in an envelope, and if not, the kind, the media type as given and the file name of its part. */
  lemma RecordAndFormTell(s: Store, a: Artifact, b: Artifact)
    requires Lawful(s.codec) && RecordOf(s, a).Some? && RecordOf(s, b).Some?
    ensures a == b <==> RecordOf(s, a) == RecordOf(s, b) && FormOf(a) == FormOf(b)
  {
    RecordsCoincideIff(s, a, b);
    if RecordOf(s, a) == RecordOf(s, b) && FormOf(a) == FormOf(b) && Single(a) {
      assert a.parts == [a.parts[0]] && b.parts == [b.parts[0]];
    }
  }

  // Another file name, or another one than none.
  function Renamed(a: Artifact): Artifact
    requires Single(a)
  {
    var part := a.parts[0];
    a.(parts := [part.(filename := if part.filename.None? then Some("") else None)])
  }

  // A single part that spells out the envelope.
  function SpelledOut(c: Codec, a: Artifact): Artifact {
    Artifact(a.id, a.name, a.description, [Part(Raw, c.canonical(Envelope(c, a)), Some(ENVELOPE_MEDIA_TYPE), None)], [])
  }

  /** For no artifact does the record alone do: a single part is stored without its file name, and an
      envelope like a part that spells it out. */
  lemma NoRecordTellsAlone(s: Store, a: Artifact) returns (b: Artifact)
    requires RecordOf(s, a).Some?
    ensures b != a && b.parts != [] && RecordOf(s, b) == RecordOf(s, a) && FormOf(b) != FormOf(a)
    ensures Single(a) ==> b == Renamed(a)
  {
    if Single(a) {
      b := Renamed(a);
      assert b.parts[0].filename != a.parts[0].filename;
      assert MediaTypeOf(b) == MediaTypeOf(a);
    } else {
      b := SpelledOut(s.codec, a);
      assert MediaTypeOf(b) == ENVELOPE_MEDIA_TYPE == MediaTypeOf(a);
    }
  }
}
