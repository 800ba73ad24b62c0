/** Documents on which rewriting one artifact changes, loses or brings to light another. */
module InlineBreakage {
  import opened Options
  import opened InlineArtifacts
  import opened InlineRewrites
  import opened InlineSurvival

  // An object named `id` without parts.
  function Hollow(id: string): Fields { Field(KArtifactId, Str(id), Field(KParts, Arr(NoItems), NoFields)) }

  lemma HollowIsShaped(id: string, p: Json)
    requires Presented(p, id)
    ensures ShapedAs(Hollow(id), id) && Rewrite(Obj(Hollow(id)), id, p) == p && Obj(Hollow(id)) != p
  {
    PlainArtifact(id, NoItems);
  }

  /** An artifact `b` with an object named `a` in its data: still extracted, with other bytes. */
  lemma NestedDataChanges(c: Codec, b: string, a: string, p: Json)
    requires Presented(p, a) && Injective(c) && ValidId(b) && a != b
    ensures var doc := DataArtifact(b, Obj(Hollow(a)));
            && Extract(c, doc) ==
                 Ok([Artifact(b, None, None, [Part(Data, c.canonical(Obj(Hollow(a))), None, None)], [])])
            && Extract(c, Rewrite(doc, a, p)) ==
                 Ok([Artifact(b, None, None, [Part(Data, c.canonical(p), None, None)], [])])
            && c.canonical(p) != c.canonical(Obj(Hollow(a)))
  {
    HollowIsShaped(a, p);
    ReadDataArtifact(c, b, Obj(Hollow(a)));
    ReadDataArtifact(c, b, p);
    RewriteDataArtifact(b, Obj(Hollow(a)), a, p);
  }

  // An artifact `b` whose only part is a text and, besides, an object named `a`.
  function DoublePart(b: string, a: string, text: string): Json {
    Obj(Field(KArtifactId, Str(b),
              Field(KParts, Arr(Item(Obj(Field(KText, Str(text), Hollow(a))), NoItems)), NoFields)))
  }

  lemma ReadDoublePart(c: Codec, a: string, text: string)
    ensures AddPart(c, Obj(Field(KText, Str(text), Hollow(a))), Parts([], [])) ==
              Ok(Parts([Part(Text, c.utf8(text), None, None)], []))
    ensures ShapedAs(Field(KText, Str(text), Hollow(a)), a)
  {
    var f := Field(KText, Str(text), Hollow(a));
    forall k ensures Get(f, k) == if k == KText then Some(Str(text)) else if k == KArtifactId then Some(Str(a))
                                  else if k == KParts then Some(Arr(NoItems)) else None
    {
      TwoFields(KArtifactId, Str(a), KParts, Arr(NoItems), k);
    }
    assert Present(f) == [KText];
    var read := Part(Text, c.utf8(text), None, None);
    assert [] + [read] == [read];
  }

  /** Such an artifact is extracted before, and makes the document unreadable once `a` is rewritten. */
  lemma DoublePartBreaks(c: Codec, b: string, a: string, text: string, p: Json)
    requires Presented(p, a) && ValidId(b) && a != b
    ensures var doc := DoublePart(b, a, text);
            && Extract(c, doc) == Ok([Artifact(b, None, None, [Part(Text, c.utf8(text), None, None)], [])])
            && Extract(c, Rewrite(doc, a, p)) == Err
  {
    ReadDoublePart(c, a, text);
    var items := Item(Obj(Field(KText, Str(text), Hollow(a))), NoItems);
    var read := Parts([Part(Text, c.utf8(text), None, None)], []);
    OnePart(c, items.head, read);
    PlainLeaf(c, b, items, read);
    PlainArtifact(b, items);
    HitMakesBad(c, DoublePart(b, a, text).fields, a, p);
  }

  lemma HitMakesBad(c: Codec, f: Fields, a: string, p: Json)
    requires Presented(p, a) && Shaped(f) && !Projected(f) && !ShapedAs(f, a) && !NoneHit(PartsOf(f), a)
    ensures Extract(c, Rewrite(Obj(f), a, p)) == Err
  {
    HitPartsAreBad(c, PartsOf(f), a, p, Parts([], []));
    ShapeKept(f, a, p, a);
    ProjectedAfter(f, a, p);
    GetRewritten(f, KParts, a, p);
  }

  // An object named `id`, with no parts, around another document; and one that is marked as a projection
  // by an object named `a`.
  function Around(id: string, v: Json): Json {
    Obj(Field(KArtifactId, Str(id), Field(KParts, Arr(NoItems), Field(Other("inner"), v, NoFields))))
  }

  function Mark(a: string): Json {
    Obj(Field(KSmeshArtifact, Obj(Field(KSchema, Str(PROJECTION_SCHEMA), NoFields)), Hollow(a)))
  }

  function Disguised(id: string, a: string, v: Json): Json {
    Obj(Field(KMetadata, Mark(a), Around(id, v).fields))
  }

  lemma AroundIsOpen(c: Codec, id: string, v: Json)
    requires Extract(c, v).Ok?
    ensures Shaped(Around(id, v).fields) && ShapedAs(Around(id, v).fields, id) &&
            Get(Around(id, v).fields, KMetadata).None?
    ensures PartsOf(Around(id, v).fields) == NoItems
    ensures ExtractFields(c, Around(id, v).fields) == Extract(c, v) == Extract(c, Around(id, v))
  {
    var inner := Field(Other("inner"), v, NoFields);
    var parts := Field(KParts, Arr(NoItems), inner);
    forall k ensures Get(Around(id, v).fields, k) ==
                     if k == KArtifactId then Some(Str(id)) else if k == KParts then Some(Arr(NoItems))
                     else if k == Other("inner") then Some(v) else None
    {
      OneField(Other("inner"), v, k);
      assert Get(parts, k) == if k == KParts then Some(Arr(NoItems)) else Get(inner, k);
    }
    var list := Extract(c, v).value;
    var none: seq<Artifact> := [];
    assert list + none == list && none + list == list;
    assert ExtractFields(c, NoFields) == Ok(none) && ExtractFields(c, inner) == Ok(list);
    assert Extract(c, Arr(NoItems)) == Ok(none) && ExtractFields(c, parts) == Ok(list);
  }

  lemma RewriteAround(id: string, v: Json, a: string, p: Json)
    requires Rewrite(v, a, p) == v
    ensures RewriteFields(Around(id, v).fields, a, p) == Around(id, v).fields
  {
    var inner := Field(Other("inner"), v, NoFields);
    assert RewriteFields(NoFields, a, p) == NoFields && RewriteFields(inner, a, p) == inner;
    assert RewriteItems(NoItems, a, p) == NoItems;
    assert RewriteFields(Field(KParts, Arr(NoItems), inner), a, p) == Field(KParts, Arr(NoItems), inner);
  }

  /** An object named `a` that has no inline part of its own: what is inside it is lost with it. */
  lemma InnerIsLost(c: Codec, v: Json, a: string, p: Json)
    requires Presented(p, a) && Extract(c, v).Ok?
    ensures Extract(c, Around(a, v)) == Extract(c, v) && Extract(c, Rewrite(Around(a, v), a, p)) == Ok([])
  {
    AroundIsOpen(c, a, v);
  }

  /** A projection whose mark is an object named `a`: what it hides comes to light. */
  lemma HiddenSurfaces(c: Codec, id: string, v: Json, a: string, p: Json)
    requires Presented(p, a) && id != a && Extract(c, v).Ok? && Rewrite(v, a, p) == v
    ensures Extract(c, Disguised(id, a, v)) == Ok([]) && Extract(c, Rewrite(Disguised(id, a, v), a, p)) == Extract(c, v)
  {
    AroundIsOpen(c, id, v);
    RewriteAround(id, v, a, p);
    MarkIsShaped(a);
    var f := Disguised(id, a, v).fields;
    assert f == Field(KMetadata, Mark(a), Around(id, v).fields);
    assert Get(f, KMetadata) == Some(Mark(a)) && Get(f, KArtifactId) == Some(Str(id)) &&
           Get(f, KParts) == Some(Arr(NoItems));
    assert Projected(f) && Shaped(f) && !ShapedAs(f, a);
    assert Rewrite(Mark(a), a, p) == p;
    var g := RewriteFields(f, a, p);
    assert g == Field(KMetadata, p, Around(id, v).fields);
    assert Get(g, KMetadata) == Some(p) && Get(g, KArtifactId) == Some(Str(id)) && Get(g, KParts) == Some(Arr(NoItems));
    var none: seq<Artifact> := [];
    assert Extract(c, p) == Ok(none) && none + Extract(c, v).value == Extract(c, v).value;
  }

  lemma MarkIsShaped(a: string)
    ensures ShapedAs(Mark(a).fields, a)
    ensures Member(Mark(a), KSmeshArtifact).Some? &&
            AsText(Member(Member(Mark(a), KSmeshArtifact).value, KSchema)) == Some(PROJECTION_SCHEMA)
  {
    PlainArtifact(a, NoItems);
    var schema := Field(KSchema, Str(PROJECTION_SCHEMA), NoFields);
    OneField(KSchema, Str(PROJECTION_SCHEMA), KSchema);
    assert Get(Mark(a).fields, KSmeshArtifact) == Some(Obj(schema));
    assert Get(Mark(a).fields, KArtifactId) == Get(Hollow(a), KArtifactId) &&
           Get(Mark(a).fields, KParts) == Get(Hollow(a), KParts);
  }

  /** Side by side, the one makes up for the other: the list is as it should be, though what it lists was
      lost in one place and came to light in another. */
  lemma ListsMayAgreeByChance(c: Codec, v: Json, id: string, a: string, p: Json)
    requires Presented(p, a) && id != a && Rewrite(v, a, p) == v
    requires Extract(c, v).Ok? && Without(Extract(c, v).value, a) == Extract(c, v).value != []
    ensures var doc := Arr(Item(Around(a, v), Item(Disguised(id, a, v), NoItems)));
            && Extract(c, doc).Ok?
            && Extract(c, Rewrite(doc, a, p)) == Ok(Without(Extract(c, doc).value, a))
            && !Keeps(c, doc, a, p)
  {
    InnerIsLost(c, v, a, p);
    HiddenSurfaces(c, id, v, a, p);
    AroundIsOpen(c, a, v);
    var list := Extract(c, v).value;
    var none: seq<Artifact> := [];
    assert none + none == none && list + none == list && none + list == list;
    var second := Item(Disguised(id, a, v), NoItems);
    assert ExtractItems(c, NoItems) == Ok(none) && ExtractItems(c, second) == Ok(none);
    assert ExtractItems(c, RewriteItems(NoItems, a, p)) == Ok(none) &&
           ExtractItems(c, RewriteItems(second, a, p)) == Ok(list);
    assert !Keeps(c, Around(a, v), a, p);
    var items := Item(Around(a, v), second);
    assert ExtractItems(c, items) == Ok(list) && ExtractItems(c, RewriteItems(items, a, p)) == Ok(list);
    assert !KeepsItems(c, items, a, p);
  }
}
