/** Exactly when rewriting one artifact leaves every other one where and as it was. */
module InlineSurvival {
  import opened Options
  import opened InlineArtifacts
  import opened InlineRewrites

  // ----- Extraction with places -----

  // A place is the list of child positions on the way to the object.
  datatype Found = Found(place: seq<nat>, artifact: Artifact)

  function Join(a: Result<seq<Found>>, b: Result<seq<Found>>): Result<seq<Found>> {
    if a.Ok? && b.Ok? then Ok(a.value + b.value) else Err
  }

  // What `Extract` finds, each with its place.
  function Locate(c: Codec, v: Json, at: seq<nat>): Result<seq<Found>> {
    match v
    case Obj(f) =>
      (match Read(c, f)
       case Skip => Ok([])
       case Bad => Err
       case Leaf(a) => Ok([Found(at, a)])
       case Descend => LocateFields(c, f, at, 0))
    case Arr(items) => LocateItems(c, items, at, 0)
    case _ => Ok([])
  }

  function LocateItems(c: Codec, items: Items, at: seq<nat>, i: nat): Result<seq<Found>> {
    match items
    case NoItems => Ok([])
    case Item(v, rest) => Join(Locate(c, v, at + [i]), LocateItems(c, rest, at, i + 1))
  }

  function LocateFields(c: Codec, f: Fields, at: seq<nat>, i: nat): Result<seq<Found>> {
    match f
    case NoFields => Ok([])
    case Field(_, v, more) => Join(Locate(c, v, at + [i]), LocateFields(c, more, at, i + 1))
  }

  function Artifacts(list: seq<Found>): seq<Artifact> { seq(|list|, i requires 0 <= i < |list| => list[i].artifact) }

  ghost predicate SameList(located: Result<seq<Found>>, extracted: Result<seq<Artifact>>) {
    located.Ok? == extracted.Ok? && (located.Ok? ==> Artifacts(located.value) == extracted.value)
  }

  lemma JoinIsAppend(x: Result<seq<Found>>, y: Result<seq<Found>>, a: Result<seq<Artifact>>, b: Result<seq<Artifact>>)
    requires SameList(x, a) && SameList(y, b)
    ensures SameList(Join(x, y), Append(a, b))
  {
    if x.Ok? && y.Ok? { assert Artifacts(x.value + y.value) == Artifacts(x.value) + Artifacts(y.value); }
  }

  lemma {:induction false} LocateIsExtract(c: Codec, v: Json, at: seq<nat>)
    ensures SameList(Locate(c, v, at), Extract(c, v))
  {
    match v
    case Obj(f) => if Read(c, f).Descend? { LocateFieldsIsExtract(c, f, at, 0); }
    case Arr(items) => LocateItemsIsExtract(c, items, at, 0);
    case _ =>
  }

  lemma {:induction false} LocateItemsIsExtract(c: Codec, items: Items, at: seq<nat>, i: nat)
    ensures SameList(LocateItems(c, items, at, i), ExtractItems(c, items))
  {
    if items.Item? {
      LocateIsExtract(c, items.head, at + [i]);
      LocateItemsIsExtract(c, items.rest, at, i + 1);
      JoinIsAppend(Locate(c, items.head, at + [i]), LocateItems(c, items.rest, at, i + 1),
                   Extract(c, items.head), ExtractItems(c, items.rest));
    }
  }

  lemma {:induction false} LocateFieldsIsExtract(c: Codec, f: Fields, at: seq<nat>, i: nat)
    ensures SameList(LocateFields(c, f, at, i), ExtractFields(c, f))
  {
    if f.Field? {
      LocateIsExtract(c, f.value, at + [i]);
      LocateFieldsIsExtract(c, f.more, at, i + 1);
      JoinIsAppend(Locate(c, f.value, at + [i]), LocateFields(c, f.more, at, i + 1),
                   Extract(c, f.value), ExtractFields(c, f.more));
    }
  }

  // ----- Places of different children differ -----

  predicate Inside(at: seq<nat>, x: Found) { at <= x.place }

  // Inside `at`, in its child `i` or a later one.
  predicate From(at: seq<nat>, i: nat, x: Found) { |at| < |x.place| && at <= x.place && i <= x.place[|at|] }

  predicate AllInside(at: seq<nat>,
                      r: Result<seq<Found>>) { r.Ok? ==> forall k | 0 <= k < |r.value| :: Inside(at, r.value[k]) }

  predicate AllFrom(at: seq<nat>, i: nat,
                    r: Result<seq<Found>>) { r.Ok? ==> forall k | 0 <= k < |r.value| :: From(at, i, r.value[k]) }

  lemma {:induction false} LocatesInside(c: Codec, v: Json, at: seq<nat>)
    ensures AllInside(at, Locate(c, v, at))
  {
    match v
    case Obj(f) => if Read(c, f).Descend? { LocatesFieldsFrom(c, f, at, 0); }
    case Arr(items) => LocatesItemsFrom(c, items, at, 0);
    case _ =>
  }

  lemma {:induction false} LocatesItemsFrom(c: Codec, items: Items, at: seq<nat>, i: nat)
    ensures AllFrom(at, i, LocateItems(c, items, at, i))
  {
    if items.Item? { LocatesInside(c, items.head, at + [i]); LocatesItemsFrom(c, items.rest, at, i + 1); }
  }

  lemma {:induction false} LocatesFieldsFrom(c: Codec, f: Fields, at: seq<nat>, i: nat)
    ensures AllFrom(at, i, LocateFields(c, f, at, i))
  {
    if f.Field? { LocatesInside(c, f.value, at + [i]); LocatesFieldsFrom(c, f.more, at, i + 1); }
  }

  lemma Boundary(at: seq<nat>, i: nat, x: seq<Found>, y: seq<Found>, k: nat)
    requires AllInside(at + [i], Ok(x)) && AllFrom(at, i + 1, Ok(y)) && k < |x + y|
    ensures Inside(at + [i], (x + y)[k]) <==> k < |x|
  {
    if k >= |x| { assert From(at, i + 1, y[k - |x|]); }
  }

  lemma JoinSplits(at: seq<nat>, i: nat, x: seq<Found>, y: seq<Found>, u: seq<Found>, v: seq<Found>)
    requires AllInside(at + [i], Ok(x)) && AllInside(at + [i], Ok(u)) && AllFrom(at, i + 1, Ok(y)) &&
             AllFrom(at, i + 1, Ok(v))
    requires x + y == u + v
    ensures x == u && y == v
  {
    if |x| < |x + y| { Boundary(at, i, x, y, |x|); Boundary(at, i, u, v, |x|); }
    if |u| < |x + y| { Boundary(at, i, x, y, |u|); Boundary(at, i, u, v, |u|); }
    assert x == (x + y)[..|x|] && u == (u + v)[..|x|] && y == (x + y)[|x|..] && v == (u + v)[|x|..];
  }

  // ----- The other artifacts -----

  function Others(list: seq<Found>, a: string): seq<Found> {
    if list == [] then []
    else (if list[0].artifact.id == a then [] else [list[0]]) + Others(list[1..], a)
  }

  lemma {:induction false} OthersJoin(x: seq<Found>, y: seq<Found>, a: string)
    ensures Others(x + y, a) == Others(x, a) + Others(y, a)
  {
    if x == [] {
      assert x + y == y;
    } else {
      assert (x + y)[1..] == x[1..] + y;
      OthersJoin(x[1..], y, a);
    }
  }

  lemma {:induction false} OthersAreWithout(list: seq<Found>, a: string)
    ensures Artifacts(Others(list, a)) == Without(Artifacts(list), a)
  {
    if list != [] {
      assert Artifacts(list)[1..] == Artifacts(list[1..]);
      OthersAreWithout(list[1..], a);
      var head := if list[0].artifact.id == a then [] else [list[0]];
      assert Artifacts(head + Others(list[1..], a)) == Artifacts(head) + Artifacts(Others(list[1..], a));
    }
  }

  lemma {:induction false} OthersAmong(list: seq<Found>, a: string, k: nat)
    requires k < |Others(list, a)|
    ensures Others(list, a)[k] in list
  {
    if list[0].artifact.id == a { OthersAmong(list[1..], a, k); }
    else if k > 0 { OthersAmong(list[1..], a, k - 1); }
  }

  lemma OthersInside(list: seq<Found>, a: string, at: seq<nat>, i: nat)
    ensures AllInside(at, Ok(list)) ==> AllInside(at, Ok(Others(list, a)))
    ensures AllFrom(at, i, Ok(list)) ==> AllFrom(at, i, Ok(Others(list, a)))
  {
    forall k | 0 <= k < |Others(list, a)| ensures Others(list, a)[k] in list { OthersAmong(list, a, k); }
  }

  ghost predicate Kept(before: Result<seq<Found>>, after: Result<seq<Found>>, a: string) {
    before.Ok? && after == Ok(Others(before.value, a))
  }

  // Two children are kept together exactly when each is.
  lemma KeptJoin(at: seq<nat>, i: nat, x: Result<seq<Found>>, y: Result<seq<Found>>, u: Result<seq<Found>>,
                 v: Result<seq<Found>>, a: string)
    requires x.Ok? && y.Ok?
    requires AllInside(at + [i], x) && AllInside(at + [i], u) && AllFrom(at, i + 1, y) && AllFrom(at, i + 1, v)
    ensures Kept(Join(x, y), Join(u, v), a) <==> Kept(x, u, a) && Kept(y, v, a)
  {
    OthersJoin(x.value, y.value, a);
    OthersInside(x.value, a, at + [i], 0);
    OthersInside(y.value, a, at, i + 1);
    if u.Ok? && v.Ok? && u.value + v.value == Others(x.value, a) + Others(y.value, a) {
      JoinSplits(at, i, u.value, v.value, Others(x.value, a), Others(y.value, a));
    }
  }

  // ----- What a rewrite leaves of an object -----

  predicate Hit(v: Json, a: string) { v.Obj? && ShapedAs(v.fields, a) }

  // The mark of a projection survives the rewrite: neither object on the way to it is replaced.
  predicate MarkKept(f: Fields, a: string) {
    Projected(f) && !Hit(Get(f, KMetadata).value, a) && !Hit(Member(Get(f, KMetadata).value, KSmeshArtifact).value, a)
  }

  lemma TextKept(v: Json, a: string, p: Json)
    requires p.Obj?
    ensures AsText(Some(Rewrite(v, a, p))) == AsText(Some(v))
  {
  }

  lemma GetTextKept(f: Fields, k: Name, a: string, p: Json)
    requires p.Obj?
    ensures GetText(RewriteFields(f, a, p), k) == GetText(f, k)
    ensures Get(RewriteFields(f, a, p), k).Some? <==> Get(f, k).Some?
  {
    GetRewritten(f, k, a, p);
    if Get(f, k).Some? { TextKept(Get(f, k).value, a, p); }
  }

  lemma MemberRewritten(v: Json, k: Name, a: string, p: Json)
    requires p.Obj?
    ensures Hit(v, a) ==> Rewrite(v, a, p) == p
    ensures !Hit(v, a) ==>
              Member(Rewrite(v, a, p), k) ==
                if Member(v, k).Some? then Some(Rewrite(Member(v, k).value, a, p)) else None
  {
    if v.Obj? { GetRewritten(v.fields, k, a, p); }
  }

  lemma ProjectedAfter(f: Fields, a: string, p: Json)
    requires Presented(p, a)
    ensures Projected(RewriteFields(f, a, p)) <==> MarkKept(f, a)
  {
    GetRewritten(f, KMetadata, a, p);
    if Get(f, KMetadata).Some? {
      var m := Get(f, KMetadata).value;
      MemberRewritten(m, KSmeshArtifact, a, p);
      if !Hit(m, a) && Member(m, KSmeshArtifact).Some? {
        var s := Member(m, KSmeshArtifact).value;
        MemberRewritten(s, KSchema, a, p);
        if !Hit(s, a) && Member(s, KSchema).Some? { TextKept(Member(s, KSchema).value, a, p); }
      }
    }
  }

  // ----- Parts -----

  predicate NoneHit(items: Items, a: string) {
    match items case NoItems => true case Item(v, rest) => !Hit(v, a) && NoneHit(rest, a)
  }

  // Every topmost object of the value that is shaped as `a` is the projection already.
  predicate InPlace(v: Json, a: string, p: Json) {
    match v
    case Obj(f) => if ShapedAs(f, a) then v == p else InPlaceFields(f, a, p)
    case Arr(items) => InPlaceItems(items, a, p)
    case _ => true
  }

  predicate InPlaceItems(items: Items, a: string, p: Json) {
    match items case NoItems => true case Item(v, rest) => InPlace(v, a, p) && InPlaceItems(rest, a, p)
  }

  predicate InPlaceFields(f: Fields, a: string, p: Json) {
    match f case NoFields => true case Field(_, v, more) => InPlace(v, a, p) && InPlaceFields(more, a, p)
  }

  lemma {:induction false} InPlaceIff(v: Json, a: string, p: Json)
    ensures Rewrite(v, a, p) == v <==> InPlace(v, a, p)
  {
    match v
    case Obj(f) => InPlaceFieldsIff(f, a, p);
    case Arr(items) => InPlaceItemsIff(items, a, p);
    case _ =>
  }

  lemma {:induction false} InPlaceItemsIff(items: Items, a: string, p: Json)
    ensures RewriteItems(items, a, p) == items <==> InPlaceItems(items, a, p)
  {
    if items.Item? { InPlaceIff(items.head, a, p); InPlaceItemsIff(items.rest, a, p); }
  }

  lemma {:induction false} InPlaceFieldsIff(f: Fields, a: string, p: Json)
    ensures RewriteFields(f, a, p) == f <==> InPlaceFields(f, a, p)
  {
    if f.Field? { InPlaceIff(f.value, a, p); InPlaceFieldsIff(f.more, a, p); }
  }

  // No data value contains anything that the rewrite changes.
  predicate DataKept(items: Items, a: string, p: Json) {
    match items
    case NoItems => true
    case Item(v, rest) =>
      (Member(v, KData).Some? ==> InPlace(Member(v, KData).value, a, p)) && DataKept(rest, a, p)
  }

  // Nothing but links.
  predicate Links(items: Items, a: string) {
    match items
    case NoItems => true
    case Item(v, rest) =>
      v.Obj? && !Hit(v, a) && Present(v.fields) == [KUrl] && GetText(v.fields, KUrl).Some? && Links(rest, a)
  }

  lemma HitPartIsBad(c: Codec, a: string, p: Json, acc: Parts)
    requires Presented(p, a)
    ensures AddPart(c, p, acc) == Err
  {
    assert Present(p.fields) == [];
  }

  lemma PresentKept(f: Fields, a: string, p: Json)
    requires p.Obj?
    ensures Present(RewriteFields(f, a, p)) == Present(f)
  {
    GetTextKept(f, KText, a, p);
    GetTextKept(f, KRaw, a, p);
    GetTextKept(f, KData, a, p);
    GetTextKept(f, KUrl, a, p);
  }

  // The texts of a part are read as before.
  lemma TextsKept(f: Fields, a: string, p: Json)
    requires p.Obj?
    ensures var g := RewriteFields(f, a, p);
            && Present(g) == Present(f)
            && (forall k | k in {KText, KRaw, KData, KUrl, KMediaType, KFilename} ::
                GetText(g, k) == GetText(f, k) && (Get(g, k).Some? <==> Get(f, k).Some?))
  {
    PresentKept(f, a, p);
    forall k | k in {KText, KRaw, KData, KUrl, KMediaType, KFilename}
      ensures GetText(RewriteFields(f, a, p), k) == GetText(f, k) &&
              (Get(RewriteFields(f, a, p), k).Some? <==> Get(f, k).Some?)
    {
      GetTextKept(f, k, a, p);
    }
  }

  // Two lists, each with one more part.
  lemma OneMorePart(x: seq<Part>, y: seq<Part>, p: Part, q: Part)
    requires |x| == |y|
    ensures x + [p] == y + [q] <==> x == y && p == q
  {
    if x + [p] == y + [q] {
      assert x == (x + [p])[..|x|] && y == (y + [q])[..|x|] && p == (x + [p])[|x|] && q == (y + [q])[|x|];
    }
  }

  // One part that is not replaced: read as before, but for the bytes of a data value that has changed.
  lemma PartAfter(c: Codec, f: Fields, a: string, p: Json, acc: Parts, also: Parts)
    requires Presented(p, a) && !ShapedAs(f, a) && Injective(c) && AddPart(c, Obj(f), acc).Ok?
    requires also.urls == acc.urls && |also.inline| == |acc.inline|
    ensures var x, y := AddPart(c, Obj(f), acc), AddPart(c, Rewrite(Obj(f), a, p), also);
            && y.Ok? && y.value.urls == x.value.urls && |y.value.inline| == |x.value.inline|
            && (y.value.inline == x.value.inline <==>
                also.inline == acc.inline &&
                  (Get(f, KData).Some? ==> Rewrite(Get(f, KData).value, a, p) == Get(f, KData).value))
  {
    var g := RewriteFields(f, a, p);
    assert Rewrite(Obj(f), a, p) == Obj(g);
    TextsKept(f, a, p);
    GetRewritten(f, KData, a, p);
    var x, y := AddPart(c, Obj(f), acc).value, AddPart(c, Obj(g), also).value;
    if Get(f, KText).Some? || Get(f, KRaw).Some? || Get(f, KData).Some? {
      OneMorePart(also.inline, acc.inline, y.inline[|acc.inline|], x.inline[|acc.inline|]);
    }
  }

  lemma {:induction false} HitPartsAreBad(c: Codec, items: Items, a: string, p: Json, acc: Parts)
    requires Presented(p, a) && !NoneHit(items, a)
    ensures ReadParts(c, RewriteItems(items, a, p), acc) == Err
  {
    HitPartIsBad(c, a, p, acc);
    if !Hit(items.head, a) {
      var next := AddPart(c, Rewrite(items.head, a, p), acc);
      if next.Ok? { HitPartsAreBad(c, items.rest, a, p, next.value); }
    }
  }

  lemma {:induction false} PartsAfter(c: Codec, items: Items, a: string, p: Json, acc: Parts, also: Parts)
    requires Presented(p, a) && NoneHit(items, a) && Injective(c) && ReadParts(c, items, acc).Ok?
    requires also.urls == acc.urls && |also.inline| == |acc.inline|
    ensures var x, y := ReadParts(c, items, acc), ReadParts(c, RewriteItems(items, a, p), also);
            && y.Ok? && y.value.urls == x.value.urls && |y.value.inline| == |x.value.inline|
            && (y.value.inline == x.value.inline <==> also.inline == acc.inline && DataKept(items, a, p))
  {
    if items.Item? {
      PartAfter(c, items.head.fields, a, p, acc, also);
      if Member(items.head, KData).Some? { InPlaceIff(Member(items.head, KData).value, a, p); }
      var x, y := AddPart(c, items.head, acc).value, AddPart(c, Rewrite(items.head, a, p), also).value;
      PartsAfter(c, items.rest, a, p, x, y);
    }
  }

  // ----- Objects that extract to nothing once `a` is rewritten -----

  predicate Silent(v: Json, a: string) {
    match v
    case Obj(f) =>
      ShapedAs(f, a) || (Shaped(f) && MarkKept(f, a)) || ((Shaped(f) ==> Links(PartsOf(f), a)) && SilentFields(f, a))
    case Arr(items) => SilentItems(items, a)
    case _ => true
  }

  predicate SilentItems(items: Items, a: string) {
    match items case NoItems => true case Item(v, rest) => Silent(v, a) && SilentItems(rest, a)
  }

  predicate SilentFields(f: Fields, a: string) {
    match f case NoFields => true case Field(_, v, more) => Silent(v, a) && SilentFields(more, a)
  }

  lemma LinkAfter(c: Codec, v: Json, a: string, p: Json, acc: Parts)
    requires Presented(p, a)
    ensures var r := AddPart(c, Rewrite(v, a, p), acc);
            && (r.Ok? ==> |acc.inline| <= |r.value.inline|)
            && (r.Ok? && r.value.inline == [] <==>
                acc.inline == [] && v.Obj? && !Hit(v, a) && Present(v.fields) == [KUrl] &&
                  GetText(v.fields, KUrl).Some?)
  {
    if Hit(v, a) {
      HitPartIsBad(c, a, p, acc);
    } else if v.Obj? {
      PresentKept(v.fields, a, p);
      GetTextKept(v.fields, KText, a, p);
      GetTextKept(v.fields, KRaw, a, p);
      GetTextKept(v.fields, KData, a, p);
      GetTextKept(v.fields, KUrl, a, p);
    }
  }

  lemma {:induction false} LinksAfter(c: Codec, items: Items, a: string, p: Json, acc: Parts)
    requires Presented(p, a)
    ensures var r := ReadParts(c, RewriteItems(items, a, p), acc);
            && (r.Ok? ==> |acc.inline| <= |r.value.inline|)
            && (r.Ok? && r.value.inline == [] <==> acc.inline == [] && Links(items, a))
  {
    if items.Item? {
      LinkAfter(c, items.head, a, p, acc);
      var next := AddPart(c, Rewrite(items.head, a, p), acc);
      if next.Ok? { LinksAfter(c, items.rest, a, p, next.value); }
    }
  }

  lemma {:induction false} SilentIff(c: Codec, v: Json, a: string, p: Json)
    requires Presented(p, a)
    ensures Extract(c, Rewrite(v, a, p)) == Ok([]) <==> Silent(v, a)
  {
    match v
    case Obj(f) =>
      if !ShapedAs(f, a) {
        var g := RewriteFields(f, a, p);
        ShapeKept(f, a, p, a);
        ProjectedAfter(f, a, p);
        GetRewritten(f, KParts, a, p);
        if Shaped(f) { LinksAfter(c, PartsOf(f), a, p, Parts([], [])); }
        SilentFieldsIff(c, f, a, p);
      }
    case Arr(items) => SilentItemsIff(c, items, a, p);
    case _ =>
  }

  lemma {:induction false} SilentItemsIff(c: Codec, items: Items, a: string, p: Json)
    requires Presented(p, a)
    ensures ExtractItems(c, RewriteItems(items, a, p)) == Ok([]) <==> SilentItems(items, a)
  {
    if items.Item? { SilentIff(c, items.head, a, p); SilentItemsIff(c, items.rest, a, p); AppendNothing(); }
  }

  lemma {:induction false} SilentFieldsIff(c: Codec, f: Fields, a: string, p: Json)
    requires Presented(p, a)
    ensures ExtractFields(c, RewriteFields(f, a, p)) == Ok([]) <==> SilentFields(f, a)
  {
    if f.Field? { SilentIff(c, f.value, a, p); SilentFieldsIff(c, f.more, a, p); AppendNothing(); }
  }

  // ----- The theorem -----

  /** What a document has to look like for a rewrite of `a` to keep the others:
      - inside an object named `a` nothing else is extracted;
      - a projection keeps its mark, or has nothing inline in it;
      - in another artifact no part is itself shaped as `a`, and every topmost object shaped as `a` in its
        data values is the projection already;
      - an object with links for parts has no part shaped as `a`. */
  predicate Keeps(c: Codec, v: Json, a: string, p: Json) {
    match v
    case Obj(f) =>
      if ShapedAs(f, a) then Extract(c, v).Ok? && Without(Extract(c, v).value, a) == []
      else
        (match Read(c, f)
         case Skip => Silent(v, a)
         case Bad => false
         case Leaf(_) => NoneHit(PartsOf(f), a) && DataKept(PartsOf(f), a, p)
         case Descend => (Shaped(f) ==> NoneHit(PartsOf(f), a)) && KeepsFields(c, f, a, p))
    case Arr(items) => KeepsItems(c, items, a, p)
    case _ => true
  }

  predicate KeepsItems(c: Codec, items: Items, a: string, p: Json) {
    match items case NoItems => true case Item(v, rest) => Keeps(c, v, a, p) && KeepsItems(c, rest, a, p)
  }

  predicate KeepsFields(c: Codec, f: Fields, a: string, p: Json) {
    match f case NoFields => true case Field(_, v, more) => Keeps(c, v, a, p) && KeepsFields(c, more, a, p)
  }

  // How an object that is not replaced is read afterwards.
  lemma ReadAfter(c: Codec, f: Fields, a: string, p: Json)
    requires Presented(p, a) && Injective(c) && !ShapedAs(f, a) && !Read(c, f).Bad? && !Read(c, f).Skip?
    ensures var r := Read(c, RewriteFields(f, a, p));
            && (Shaped(f) && !NoneHit(PartsOf(f), a) ==> r.Bad?)
            && (Read(c, f).Descend? && (Shaped(f) ==> NoneHit(PartsOf(f), a)) ==> r.Descend?)
            && (Read(c, f).Leaf? && NoneHit(PartsOf(f), a) ==>
                r.Leaf? && (r == Read(c, f) <==> DataKept(PartsOf(f), a, p)))
  {
    var g := RewriteFields(f, a, p);
    ShapeKept(f, a, p, a);
    ProjectedAfter(f, a, p);
    if Shaped(f) {
      GetRewritten(f, KParts, a, p);
      GetTextKept(f, KArtifactId, a, p);
      GetTextKept(f, KName, a, p);
      GetTextKept(f, KDescription, a, p);
      assert PartsOf(g) == RewriteItems(PartsOf(f), a, p) && IdOf(g) == IdOf(f);
      if NoneHit(PartsOf(f), a) { PartsAfter(c, PartsOf(f), a, p, Parts([], []), Parts([], [])); }
      else { HitPartsAreBad(c, PartsOf(f), a, p, Parts([], [])); }
    }
  }

  lemma NoOthers(list: seq<Found>, a: string)
    ensures Others(list, a) == [] <==> Without(Artifacts(list), a) == []
  {
    OthersAreWithout(list, a);
  }

  lemma OthersOne(x: Found, a: string)
    requires x.artifact.id != a
    ensures Others([x], a) == [x]
  {
    assert [x][1..] == [];
  }

  lemma KeepsObjectIff(c: Codec, f: Fields, a: string, p: Json, at: seq<nat>)
    requires Presented(p, a) && Injective(c) && Locate(c, Obj(f), at).Ok?
    requires !ShapedAs(f, a) && Read(c, f).Descend? ==>
               (Kept(LocateFields(c, f, at, 0), LocateFields(c, RewriteFields(f, a, p), at, 0), a) <==>
                KeepsFields(c, f, a, p))
    ensures Kept(Locate(c, Obj(f), at), Locate(c, Rewrite(Obj(f), a, p), at), a) <==> Keeps(c, Obj(f), a, p)
  {
    LocateIsExtract(c, Obj(f), at);
    LocateIsExtract(c, Rewrite(Obj(f), a, p), at);
    if ShapedAs(f, a) {
      NoOthers(Locate(c, Obj(f), at).value, a);
    } else if Read(c, f).Skip? {
      SilentIff(c, Obj(f), a, p);
    } else {
      ReadAfter(c, f, a, p);
      if Read(c, f).Leaf? { OthersOne(Found(at, Read(c, f).artifact), a); }
    }
  }

  /** On every document that can be read, and whatever the projection presents: rewriting `a` leaves every
      other artifact at its place and as it was, and brings no other to light, if and only if `Keeps`. */
  lemma {:induction false} SurvivalIff(c: Codec, v: Json, a: string, p: Json, at: seq<nat>)
    requires Presented(p, a) && Injective(c) && Extract(c, v).Ok?
    ensures Kept(Locate(c, v, at), Locate(c, Rewrite(v, a, p), at), a) <==> Keeps(c, v, a, p)
  {
    LocateIsExtract(c, v, at);
    match v
    case Obj(f) =>
      if !ShapedAs(f, a) && Read(c, f).Descend? { FieldSurvivalIff(c, f, a, p, at, 0); }
      KeepsObjectIff(c, f, a, p, at);
    case Arr(items) => ItemSurvivalIff(c, items, a, p, at, 0);
    case _ =>
  }

  lemma {:induction false} ItemSurvivalIff(c: Codec, items: Items, a: string, p: Json, at: seq<nat>, i: nat)
    requires Presented(p, a) && Injective(c) && ExtractItems(c, items).Ok?
    ensures Kept(LocateItems(c, items, at, i), LocateItems(c, RewriteItems(items, a, p), at, i), a) <==>
              KeepsItems(c, items, a, p)
  {
    if items.Item? {
      var v, rest := items.head, items.rest;
      var u, left := Rewrite(v, a, p), RewriteItems(rest, a, p);
      SurvivalIff(c, v, a, p, at + [i]);
      ItemSurvivalIff(c, rest, a, p, at, i + 1);
      LocateIsExtract(c, v, at + [i]);
      LocateItemsIsExtract(c, rest, at, i + 1);
      LocatesInside(c, v, at + [i]);
      LocatesInside(c, u, at + [i]);
      LocatesItemsFrom(c, rest, at, i + 1);
      LocatesItemsFrom(c, left, at, i + 1);
      KeptJoin(at, i, Locate(c, v, at + [i]), LocateItems(c, rest, at, i + 1),
               Locate(c, u, at + [i]), LocateItems(c, left, at, i + 1), a);
    }
  }

  lemma {:induction false} FieldSurvivalIff(c: Codec, f: Fields, a: string, p: Json, at: seq<nat>, i: nat)
    requires Presented(p, a) && Injective(c) && ExtractFields(c, f).Ok?
    ensures Kept(LocateFields(c, f, at, i), LocateFields(c, RewriteFields(f, a, p), at, i), a) <==>
              KeepsFields(c, f, a, p)
  {
    if f.Field? {
      var v, more := f.value, f.more;
      var u, left := Rewrite(v, a, p), RewriteFields(more, a, p);
      SurvivalIff(c, v, a, p, at + [i]);
      FieldSurvivalIff(c, more, a, p, at, i + 1);
      LocateIsExtract(c, v, at + [i]);
      LocateFieldsIsExtract(c, more, at, i + 1);
      LocatesInside(c, v, at + [i]);
      LocatesInside(c, u, at + [i]);
      LocatesFieldsFrom(c, more, at, i + 1);
      LocatesFieldsFrom(c, left, at, i + 1);
      KeptJoin(at, i, Locate(c, v, at + [i]), LocateFields(c, more, at, i + 1),
               Locate(c, u, at + [i]), LocateFields(c, left, at, i + 1), a);
    }
  }

  // ----- The plain list -----

  // No projection that extraction comes to loses its mark.
  predicate MarksKept(c: Codec, v: Json, a: string) {
    match v
    case Obj(f) =>
      ShapedAs(f, a) ||
      (match Read(c, f)
       case Skip => MarkKept(f, a)
       case Descend => FieldMarksKept(c, f, a)
       case _ => true)
    case Arr(items) => ItemMarksKept(c, items, a)
    case _ => true
  }

  predicate ItemMarksKept(c: Codec, items: Items, a: string) {
    match items case NoItems => true case Item(v, rest) => MarksKept(c, v, a) && ItemMarksKept(c, rest, a)
  }

  predicate FieldMarksKept(c: Codec, f: Fields, a: string) {
    match f case NoFields => true case Field(_, v, more) => MarksKept(c, v, a) && FieldMarksKept(c, more, a)
  }

  // Nothing comes to light, so a list of the same length has the same places.
  ghost predicate Thinner(before: Result<seq<Found>>, after: Result<seq<Found>>, a: string) {
    before.Ok? && (after.Ok? ==>
      var x, y := Others(before.value, a), after.value;
      |y| <= |x| && (|y| == |x| ==> forall k | 0 <= k < |x| :: y[k].place == x[k].place))
  }

  lemma ThinnerJoin(x: Result<seq<Found>>, y: Result<seq<Found>>, u: Result<seq<Found>>, v: Result<seq<Found>>,
                    a: string)
    requires Thinner(x, u, a) && Thinner(y, v, a)
    ensures Thinner(Join(x, y), Join(u, v), a)
  {
    OthersJoin(x.value, y.value, a);
  }

  lemma LeafThins(c: Codec, f: Fields, a: string, p: Json, at: seq<nat>)
    requires Presented(p, a) && Injective(c) && !ShapedAs(f, a) && Read(c, f).Leaf?
    ensures Thinner(Locate(c, Obj(f), at), Locate(c, Obj(RewriteFields(f, a, p)), at), a)
  {
    ReadAfter(c, f, a, p);
    OthersOne(Found(at, Read(c, f).artifact), a);
  }

  lemma SkipThins(c: Codec, f: Fields, a: string, p: Json, at: seq<nat>)
    requires Presented(p, a) && !ShapedAs(f, a) && Read(c, f).Skip? && MarkKept(f, a)
    ensures Thinner(Locate(c, Obj(f), at), Locate(c, Obj(RewriteFields(f, a, p)), at), a)
  {
    ShapeKept(f, a, p, a);
    ProjectedAfter(f, a, p);
  }

  lemma DescentThins(c: Codec, f: Fields, a: string, p: Json, at: seq<nat>)
    requires Presented(p, a) && Injective(c) && !ShapedAs(f, a) && Read(c, f).Descend?
    requires Thinner(LocateFields(c, f, at, 0), LocateFields(c, RewriteFields(f, a, p), at, 0), a)
    ensures Thinner(Locate(c, Obj(f), at), Locate(c, Obj(RewriteFields(f, a, p)), at), a)
  {
    ReadAfter(c, f, a, p);
  }

  lemma {:induction false} RewriteThins(c: Codec, v: Json, a: string, p: Json, at: seq<nat>)
    requires Presented(p, a) && Injective(c) && Extract(c, v).Ok? && MarksKept(c, v, a)
    ensures Thinner(Locate(c, v, at), Locate(c, Rewrite(v, a, p), at), a)
  {
    LocateIsExtract(c, v, at);
    match v
    case Obj(f) =>
      if !ShapedAs(f, a) {
        match Read(c, f)
        case Skip => SkipThins(c, f, a, p, at);
        case Leaf(_) => LeafThins(c, f, a, p, at);
        case Descend => RewriteThinsFields(c, f, a, p, at, 0); DescentThins(c, f, a, p, at);
      }
    case Arr(items) => RewriteThinsItems(c, items, a, p, at, 0);
    case _ =>
  }

  lemma {:induction false} RewriteThinsItems(c: Codec, items: Items, a: string, p: Json, at: seq<nat>, i: nat)
    requires Presented(p, a) && Injective(c) && ExtractItems(c, items).Ok? && ItemMarksKept(c, items, a)
    ensures Thinner(LocateItems(c, items, at, i), LocateItems(c, RewriteItems(items, a, p), at, i), a)
  {
    if items.Item? {
      RewriteThins(c, items.head, a, p, at + [i]);
      RewriteThinsItems(c, items.rest, a, p, at, i + 1);
      ThinnerJoin(Locate(c, items.head, at + [i]), LocateItems(c, items.rest, at, i + 1),
                  Locate(c, Rewrite(items.head, a, p), at + [i]),
                  LocateItems(c, RewriteItems(items.rest, a, p), at, i + 1), a);
    }
  }

  lemma {:induction false} RewriteThinsFields(c: Codec, f: Fields, a: string, p: Json, at: seq<nat>, i: nat)
    requires Presented(p, a) && Injective(c) && ExtractFields(c, f).Ok? && FieldMarksKept(c, f, a)
    ensures Thinner(LocateFields(c, f, at, i), LocateFields(c, RewriteFields(f, a, p), at, i), a)
  {
    if f.Field? {
      RewriteThins(c, f.value, a, p, at + [i]);
      RewriteThinsFields(c, f.more, a, p, at, i + 1);
      ThinnerJoin(Locate(c, f.value, at + [i]), LocateFields(c, f.more, at, i + 1),
                  Locate(c, Rewrite(f.value, a, p), at + [i]),
                  LocateFields(c, RewriteFields(f.more, a, p), at, i + 1), a);
    }
  }

  /** `Keeps` makes extraction afterwards the original list without `a`; where no projection loses its mark,
      nothing else does. */
  lemma ListSurvivalIff(c: Codec, v: Json, a: string, p: Json)
    requires Presented(p, a) && Injective(c) && Extract(c, v).Ok?
    ensures Keeps(c, v, a, p) ==> Extract(c, Rewrite(v, a, p)) == Ok(Without(Extract(c, v).value, a))
    ensures MarksKept(c, v, a) && Extract(c, Rewrite(v, a, p)) == Ok(Without(Extract(c, v).value, a)) ==>
              Keeps(c, v, a, p)
  {
    LocateIsExtract(c, v, []);
    LocateIsExtract(c, Rewrite(v, a, p), []);
    SurvivalIff(c, v, a, p, []);
    var before, after := Locate(c, v, []).value, Locate(c, Rewrite(v, a, p), []);
    OthersAreWithout(before, a);
    if MarksKept(c, v, a) && Extract(c, Rewrite(v, a, p)) == Ok(Without(Extract(c, v).value, a)) {
      RewriteThins(c, v, a, p, []);
      SameArtifacts(after.value, Others(before, a));
    }
  }

  lemma SameArtifacts(x: seq<Found>, y: seq<Found>)
    requires Artifacts(x) == Artifacts(y) && |x| == |y| && forall k | 0 <= k < |x| :: x[k].place == y[k].place
    ensures x == y
  {
    forall k | 0 <= k < |x| ensures x[k] == y[k] { assert Artifacts(x)[k] == Artifacts(y)[k]; }
  }
}
