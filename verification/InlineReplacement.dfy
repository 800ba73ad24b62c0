/** Replacing several artifacts of a document at once, which is what rewriting them one by one comes to. */
module InlineReplacement {
  import opened Options
  import opened InlineArtifacts
  import opened InlineRewrites

  // The document with every topmost object shaped as one of the ids replaced, and nothing else.
  function Replace(v: Json, shown: map<string, Json>): Json {
    match v
    case Obj(f) => if Shaped(f) && IdOf(f) in shown then shown[IdOf(f)] else Obj(ReplaceFields(f, shown))
    case Arr(items) => Arr(ReplaceItems(items, shown))
    case _ => v
  }

  function ReplaceItems(items: Items, shown: map<string, Json>): Items {
    match items
    case NoItems => NoItems
    case Item(v, rest) => Item(Replace(v, shown), ReplaceItems(rest, shown))
  }

  function ReplaceFields(f: Fields, shown: map<string, Json>): Fields {
    match f
    case NoFields => NoFields
    case Field(n, v, more) => Field(n, Replace(v, shown), ReplaceFields(more, shown))
  }

  ghost predicate Projecting(shown: map<string, Json>) { forall id | id in shown :: ProjectionOf(shown[id], id) }

  // ----- Replacing one, none, or nothing that is there -----

  lemma {:induction false} ReplaceOne(v: Json, a: string, p: Json)
    ensures Replace(v, map[a := p]) == Rewrite(v, a, p)
  {
    match v
    case Obj(f) => ReplaceOneInFields(f, a, p);
    case Arr(items) => ReplaceOneInItems(items, a, p);
    case _ =>
  }

  lemma {:induction false} ReplaceOneInItems(items: Items, a: string, p: Json)
    ensures ReplaceItems(items, map[a := p]) == RewriteItems(items, a, p)
  {
    if items.Item? { ReplaceOne(items.head, a, p); ReplaceOneInItems(items.rest, a, p); }
  }

  lemma {:induction false} ReplaceOneInFields(f: Fields, a: string, p: Json)
    ensures ReplaceFields(f, map[a := p]) == RewriteFields(f, a, p)
  {
    if f.Field? { ReplaceOne(f.value, a, p); ReplaceOneInFields(f.more, a, p); }
  }

  lemma {:induction false} ReplaceNone(v: Json, shown: map<string, Json>)
    requires Bare(v) || shown == map[]
    ensures Replace(v, shown) == v
  {
    match v
    case Obj(f) => ReplaceNoneInFields(f, shown);
    case Arr(items) => ReplaceNoneInItems(items, shown);
    case _ =>
  }

  lemma {:induction false} ReplaceNoneInItems(items: Items, shown: map<string, Json>)
    requires BareItems(items) || shown == map[]
    ensures ReplaceItems(items, shown) == items
  {
    if items.Item? { ReplaceNone(items.head, shown); ReplaceNoneInItems(items.rest, shown); }
  }

  lemma {:induction false} ReplaceNoneInFields(f: Fields, shown: map<string, Json>)
    requires BareFields(f) || shown == map[]
    ensures ReplaceFields(f, shown) == f
  {
    if f.Field? { ReplaceNone(f.value, shown); ReplaceNoneInFields(f.more, shown); }
  }

  // ----- Replacing twice is replacing once -----

  lemma {:induction false} GetReplaced(f: Fields, k: Name, shown: map<string, Json>)
    ensures Get(ReplaceFields(f, shown), k) == if Get(f, k).Some? then Some(Replace(Get(f, k).value, shown)) else None
  {
    if f.Field? { GetReplaced(f.more, k, shown); }
  }

  predicate SameShape(f: Fields, g: Fields) { (Shaped(f) <==> Shaped(g)) && (Shaped(f) ==> IdOf(f) == IdOf(g)) }

  lemma ShapeReplaced(f: Fields, shown: map<string, Json>)
    requires Projecting(shown)
    ensures SameShape(f, ReplaceFields(f, shown))
  {
    GetReplaced(f, KArtifactId, shown);
    GetReplaced(f, KParts, shown);
  }

  lemma ProjectionKept(p: Json, a: string, n: map<string, Json>)
    requires ProjectionOf(p, a) && a !in n
    ensures Replace(p, n) == p
  {
    ReplaceNoneInFields(p.fields, n);
  }

  lemma ReplaceObjectTwice(f: Fields, m: map<string, Json>, n: map<string, Json>)
    requires SameShape(f, ReplaceFields(f, m)) && m.Keys !! n.Keys
    requires ReplaceFields(ReplaceFields(f, m), n) == ReplaceFields(f, m + n)
    requires Shaped(f) && IdOf(f) in m ==> Replace(m[IdOf(f)], n) == m[IdOf(f)]
    ensures Replace(Replace(Obj(f), m), n) == Replace(Obj(f), m + n)
  {
  }

  /** Replacing some artifacts and then others is replacing all of them at once, on every document. */
  lemma {:induction false} ReplaceTwice(v: Json, m: map<string, Json>, n: map<string, Json>)
    requires Projecting(m) && m.Keys !! n.Keys
    ensures Replace(Replace(v, m), n) == Replace(v, m + n)
  {
    match v
    case Obj(f) =>
      ShapeReplaced(f, m);
      ReplaceFieldsTwice(f, m, n);
      if Shaped(f) && IdOf(f) in m { ProjectionKept(m[IdOf(f)], IdOf(f), n); }
      ReplaceObjectTwice(f, m, n);
    case Arr(items) => ReplaceItemsTwice(items, m, n);
    case _ =>
  }

  lemma {:induction false} ReplaceItemsTwice(items: Items, m: map<string, Json>, n: map<string, Json>)
    requires Projecting(m) && m.Keys !! n.Keys
    ensures ReplaceItems(ReplaceItems(items, m), n) == ReplaceItems(items, m + n)
  {
    if items.Item? { ReplaceTwice(items.head, m, n); ReplaceItemsTwice(items.rest, m, n); }
  }

  lemma {:induction false} ReplaceFieldsTwice(f: Fields, m: map<string, Json>, n: map<string, Json>)
    requires Projecting(m) && m.Keys !! n.Keys
    ensures ReplaceFields(ReplaceFields(f, m), n) == ReplaceFields(f, m + n)
  {
    if f.Field? { ReplaceTwice(f.value, m, n); ReplaceFieldsTwice(f.more, m, n); }
  }
}
