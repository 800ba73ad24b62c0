/**
 The migration of inline artifacts, batch by batch, until a scan finds none.

 Rows are the JSON columns of the durable tables, as one scan returns them. A batch registers the
 selected artifacts and rewrites every row that holds one of them, in one transaction.
 */
module Migration {
  import opened InlineArtifacts
  import opened InlineRewrites
  import opened InlineReplacement

  datatype SourceKey = SourceKey(relation: string, key1: string, key2: string, key3: string)

  // Where an artifact came from, as the row that holds it says.
  datatype Origin = Origin(owner: string, context: string, message: string, dispatch: string, revision: int)

  datatype Row = Row(key: SourceKey, tenant: string, task: string, origin: Origin, value: Json)

  datatype GroupKey = GroupKey(tenant: string, task: string, id: string)

  // The origin is that of the first row with the artifact.
  datatype Group = Group(origin: Origin, artifact: Artifact, rows: set<SourceKey>)

  function KeyFor(row: Row, a: Artifact): GroupKey { GroupKey(row.tenant, row.task, a.id) }

  predicate Readable(c: Codec, rows: seq<Row>) { forall i | 0 <= i < |rows| :: Extract(c, rows[i].value).Ok? }

  // Artifact `a` is inline in the row, and belongs to group `g`.
  predicate Has(c: Codec, row: Row, g: GroupKey, a: Artifact) {
    Extract(c, row.value).Ok? && a in Extract(c, row.value).value && KeyFor(row, a) == g
  }

  function RowGroups(c: Codec, row: Row): set<GroupKey> {
    if Extract(c, row.value).Err? then {}
    else set j | 0 <= j < |Extract(c, row.value).value| :: KeyFor(row, Extract(c, row.value).value[j])
  }

  // The distinct groups that are inline somewhere.
  function InlineGroups(c: Codec, rows: seq<Row>): set<GroupKey> {
    if rows == [] then {} else InlineGroups(c, rows[..|rows| - 1]) + RowGroups(c, rows[|rows| - 1])
  }

  ghost predicate Inline(c: Codec, rows: seq<Row>, g: GroupKey, a: Artifact) {
    exists i :: 0 <= i < |rows| && Has(c, rows[i], g, a)
  }

  // Two inline artifacts of one group are the same artifact with the same owner and context.
  ghost predicate Agreeing(c: Codec, rows: seq<Row>) {
    forall i, j, a, b | 0 <= i < |rows| && 0 <= j < |rows| && Has(c, rows[i], KeyFor(rows[i], a), a) &&
                        Has(c, rows[j], KeyFor(rows[i], a), b) ::
      a == b && rows[i].origin.owner == rows[j].origin.owner && rows[i].origin.context == rows[j].origin.context
  }

  predicate DistinctKeys(rows: seq<Row>) {
    forall i, j | 0 <= i < j < |rows| :: rows[i].key != rows[j].key
  }

  predicate AllFlat(rows: seq<Row>) { forall i | 0 <= i < |rows| :: Flat(rows[i].value) }

  lemma {:induction false} InlineGroupsAre(c: Codec, rows: seq<Row>, g: GroupKey)
    ensures g in InlineGroups(c, rows) <==> exists a :: Inline(c, rows, g, a)
  {
    if rows != [] {
      var n := |rows| - 1;
      InlineGroupsAre(c, rows[..n], g);
      if g in RowGroups(c, rows[n]) {
        var j :| 0 <= j < |Extract(c, rows[n].value).value| && g == KeyFor(rows[n], Extract(c, rows[n].value).value[j]);
        assert Has(c, rows[n], g, Extract(c, rows[n].value).value[j]);
        assert Inline(c, rows, g, Extract(c, rows[n].value).value[j]);
      }
      if g in InlineGroups(c, rows[..n]) {
        var a :| Inline(c, rows[..n], g, a);
        var i :| 0 <= i < n && Has(c, rows[..n][i], g, a);
        assert Has(c, rows[i], g, a);
        assert Inline(c, rows, g, a);
      }
      if exists a :: Inline(c, rows, g, a) {
        var a :| Inline(c, rows, g, a);
        var i :| 0 <= i < |rows| && Has(c, rows[i], g, a);
        if i < n { assert Has(c, rows[..n][i], g, a); assert Inline(c, rows[..n], g, a); }
      }
    }
  }

  // ----- One row through one batch -----

  predicate Concerns(g: GroupKey, row: Row) { g.tenant == row.tenant && g.task == row.task }

  // The row's document after the selected artifacts, in order, have been rewritten where they occur.
  function Settle(c: Codec, row: Row, order: seq<GroupKey>, projections: map<GroupKey, Json>): Json
    requires forall g | g in order :: g in projections
  {
    if order == [] then row.value
    else
      var n := |order| - 1;
      var v := Settle(c, row, order[..n], projections);
      var g := order[n];
      if Concerns(g, row) && Extract(c, v).Ok? && Mentions(Extract(c, v).value, g.id)
      then Rewrite(v, g.id, projections[g]) else v
  }

  lemma {:induction false} InWithout(list: seq<Artifact>, id: string, a: Artifact)
    ensures a in Without(list, id) <==> a in list && a.id != id
  {
    if list != [] { InWithout(list[1..], id, a); }
  }

  ghost predicate Projections(order: seq<GroupKey>, projections: map<GroupKey, Json>) {
    forall g | g in order :: g in projections && ProjectionOf(projections[g], g.id)
  }

  /** A flat row ends up flat and keeps exactly its artifacts outside the batch, unchanged. */
  lemma {:induction false} SettleIsExact(c: Codec, row: Row, order: seq<GroupKey>, projections: map<GroupKey, Json>)
    requires Flat(row.value) && Extract(c, row.value).Ok? && Projections(order, projections)
    ensures var v := Settle(c, row, order, projections);
            && Flat(v) && Extract(c, v).Ok?
            && forall a :: a in Extract(c, v).value <==> a in Extract(c, row.value).value && KeyFor(row, a) !in order
    decreases |order|
  {
    if order != [] {
      var n := |order| - 1;
      SettleIsExact(c, row, order[..n], projections);
      var v, g := Settle(c, row, order[..n], projections), order[n];
      assert order == order[..n] + [g];
      if Concerns(g, row) && Mentions(Extract(c, v).value, g.id) {
        ExactOnFlat(c, v, g.id, projections[g]);
        FlatKept(v, g.id, projections[g]);
        forall a ensures a in Without(Extract(c, v).value, g.id) <==> a in Extract(c, v).value && a.id != g.id {
          InWithout(Extract(c, v).value, g.id, a);
        }
      } else if Concerns(g, row) {
        forall a | a in Extract(c, v).value ensures a.id != g.id {
          var i :| 0 <= i < |Extract(c, v).value| && Extract(c, v).value[i] == a;
        }
      }
    }
  }

  // ----- What a settled row looks like -----

  ghost predicate Distinct(order: seq<GroupKey>) { forall i, j | 0 <= i < j < |order| :: order[i] != order[j] }

  // The ids of the row's inline artifacts.
  function RowIds(c: Codec, row: Row): set<string> {
    if Extract(c, row.value).Err? then {}
    else set j | 0 <= j < |Extract(c, row.value).value| :: Extract(c, row.value).value[j].id
  }

  function GroupIn(row: Row, id: string): GroupKey { GroupKey(row.tenant, row.task, id) }

  // What the row's inline artifacts are replaced by.
  function RowShown(c: Codec, row: Row, shown: map<GroupKey, Json>): map<string, Json> {
    ShownFor(RowIds(c, row), row, shown)
  }

  function ShownFor(ids: set<string>, row: Row, shown: map<GroupKey, Json>): map<string, Json> {
    map id | id in ids && GroupIn(row, id) in shown :: shown[GroupIn(row, id)]
  }

  function Taken(order: seq<GroupKey>, projections: map<GroupKey, Json>): map<GroupKey, Json> {
    map g | g in projections && g in order :: projections[g]
  }

  lemma RowIdsAre(c: Codec, row: Row, id: string)
    ensures id in RowIds(c, row) <==> exists a :: Has(c, row, GroupIn(row, id), a)
  {
    if id in RowIds(c, row) {
      var list := Extract(c, row.value).value;
      var j :| 0 <= j < |list| && list[j].id == id;
      assert Has(c, row, GroupIn(row, id), list[j]);
    }
  }

  // A selected group is still mentioned when its turn comes exactly if the row has it.
  lemma MentionedInTurn(c: Codec, row: Row, order: seq<GroupKey>, projections: map<GroupKey, Json>, g: GroupKey)
    requires Flat(row.value) && Extract(c, row.value).Ok? && Projections(order, projections)
    requires g !in order && Concerns(g, row)
    ensures var v := Settle(c, row, order, projections);
            Extract(c, v).Ok? && (Mentions(Extract(c, v).value, g.id) <==> g.id in RowIds(c, row))
  {
    SettleIsExact(c, row, order, projections);
    var before, after := Extract(c, row.value).value, Extract(c, Settle(c, row, order, projections)).value;
    if Mentions(after, g.id) {
      var i :| 0 <= i < |after| && after[i].id == g.id;
      assert after[i] in before;
      var j :| 0 <= j < |before| && before[j] == after[i];
    }
    if g.id in RowIds(c, row) {
      var j :| 0 <= j < |before| && before[j].id == g.id;
      assert KeyFor(row, before[j]) == g && before[j] in after;
      var i :| 0 <= i < |after| && after[i] == before[j];
    }
  }

  lemma ShownOne(ids: set<string>, row: Row, shown: map<GroupKey, Json>, g: GroupKey, p: Json)
    requires g !in shown
    ensures Concerns(g, row) && g.id in ids ==>
              g.id !in ShownFor(ids, row, shown) &&
              ShownFor(ids, row, shown[g := p]) == ShownFor(ids, row, shown) + map[g.id := p]
    ensures !(Concerns(g, row) && g.id in ids) ==> ShownFor(ids, row, shown[g := p]) == ShownFor(ids, row, shown)
  {
    assert forall id :: GroupIn(row, id) == g <==> Concerns(g, row) && id == g.id;
  }

  lemma TakenOne(order: seq<GroupKey>, g: GroupKey, projections: map<GroupKey, Json>)
    requires g !in order && g in projections
    ensures Taken(order + [g], projections) == Taken(order, projections)[g := projections[g]]
  {
  }

  /** A settled flat row is the row with the objects of its selected artifacts replaced, and nothing else. */
  lemma {:induction false} SettleReplaces(c: Codec, row: Row, order: seq<GroupKey>, projections: map<GroupKey, Json>)
    requires Flat(row.value) && Extract(c, row.value).Ok? && Projections(order, projections) && Distinct(order)
    ensures Settle(c, row, order, projections) == Replace(row.value, RowShown(c, row, Taken(order, projections)))
    decreases |order|
  {
    if order == [] {
      assert Taken(order, projections) == map[] && RowShown(c, row, Taken(order, projections)) == map[];
      ReplaceNone(row.value, map[]);
    } else {
      var n := |order| - 1;
      var front, g := order[..n], order[n];
      assert order == front + [g] && g !in front;
      SettleReplaces(c, row, front, projections);
      TakenOne(front, g, projections);
      ShownOne(RowIds(c, row), row, Taken(front, projections), g, projections[g]);
      if Concerns(g, row) {
        MentionedInTurn(c, row, front, projections, g);
        if g.id in RowIds(c, row) { SettleOne(c, row, front, projections, g); }
      }
    }
  }

  lemma SettleOne(c: Codec, row: Row, front: seq<GroupKey>, projections: map<GroupKey, Json>, g: GroupKey)
    requires Projections(front, projections) && g in projections
    requires Settle(c, row, front, projections) == Replace(row.value, RowShown(c, row, Taken(front, projections)))
    requires g.id !in RowShown(c, row, Taken(front, projections))
    ensures Rewrite(Settle(c, row, front, projections), g.id, projections[g]) ==
            Replace(row.value, RowShown(c, row, Taken(front, projections)) + map[g.id := projections[g]])
  {
    var m := RowShown(c, row, Taken(front, projections));
    ReplaceOne(Settle(c, row, front, projections), g.id, projections[g]);
    assert Projecting(m);
    ReplaceTwice(row.value, m, map[g.id := projections[g]]);
  }

  // ----- All rows through one batch -----

  ghost predicate Committed(c: Codec, rows: seq<Row>, order: seq<GroupKey>, projections: map<GroupKey, Json>,
                            out: seq<Row>)
    requires forall g | g in order :: g in projections
  {
    |out| == |rows| &&
    forall i | 0 <= i < |rows| :: out[i] == rows[i].(value := Settle(c, rows[i], order, projections))
  }

  lemma CommittedRow(c: Codec, row: Row, order: seq<GroupKey>, projections: map<GroupKey, Json>, out: Row,
                     g: GroupKey, a: Artifact)
    requires Flat(row.value) && Extract(c, row.value).Ok? && Projections(order, projections)
    requires out == row.(value := Settle(c, row, order, projections))
    ensures Has(c, out, g, a) <==> Has(c, row, g, a) && g !in order
  {
    SettleIsExact(c, row, order, projections);
  }

  /** A committed batch removes exactly the selected groups, introduces none, and leaves every other
      artifact as it was; rows stay readable, flat, distinctly keyed and in agreement. */
  lemma BatchIsExact(c: Codec, rows: seq<Row>, order: seq<GroupKey>, projections: map<GroupKey, Json>, out: seq<Row>)
    requires Readable(c, rows) && AllFlat(rows) && DistinctKeys(rows) && Agreeing(c, rows)
    requires Projections(order, projections) && Committed(c, rows, order, projections, out)
    ensures Readable(c, out) && AllFlat(out) && DistinctKeys(out) && Agreeing(c, out)
    ensures forall g, a :: Inline(c, out, g, a) <==> Inline(c, rows, g, a) && g !in order
    ensures InlineGroups(c, out) == InlineGroups(c, rows) - (set g | g in order)
  {
    forall i | 0 <= i < |out| ensures Flat(out[i].value) && Extract(c, out[i].value).Ok? {
      SettleIsExact(c, rows[i], order, projections);
    }
    forall i, g, a | 0 <= i < |out| ensures Has(c, out[i], g, a) <==> Has(c, rows[i], g, a) && g !in order {
      CommittedRow(c, rows[i], order, projections, out[i], g, a);
    }
    assert Agreeing(c, out) by {
      forall i, j, a, b | 0 <= i < |out| && 0 <= j < |out| && Has(c, out[i], KeyFor(out[i], a), a) &&
                          Has(c, out[j], KeyFor(out[i], a), b)
        ensures a == b && out[i].origin.owner == out[j].origin.owner && out[i].origin.context == out[j].origin.context
      {
        assert Has(c, rows[i], KeyFor(rows[i], a), a) && Has(c, rows[j], KeyFor(rows[i], a), b);
      }
    }
    forall g, a ensures Inline(c, out, g, a) <==> Inline(c, rows, g, a) && g !in order {
      if Inline(c, out, g, a) {
        var i :| 0 <= i < |out| && Has(c, out[i], g, a);
        assert Has(c, rows[i], g, a);
      }
      if Inline(c, rows, g, a) && g !in order {
        var i :| 0 <= i < |rows| && Has(c, rows[i], g, a);
        assert Has(c, out[i], g, a);
      }
    }
    forall g ensures g in InlineGroups(c, out) <==> g in InlineGroups(c, rows) && g !in order {
      InlineGroupsAre(c, out, g);
      InlineGroupsAre(c, rows, g);
    }
  }

  // ----- Source keys that two rows share -----

  predicate First(rows: seq<Row>, i: nat)
    requires i < |rows|
  {
    forall j | 0 <= j < i :: rows[j].key != rows[i].key
  }

  // What the transaction does whatever the keys: it looks a key up and so only ever finds its first row.
  ghost predicate FirstCommitted(c: Codec, rows: seq<Row>, order: seq<GroupKey>, projections: map<GroupKey, Json>,
                                 out: seq<Row>)
    requires forall g | g in order :: g in projections
  {
    |out| == |rows| &&
    forall i | 0 <= i < |rows| ::
      out[i] == if First(rows, i) then rows[i].(value := Settle(c, rows[i], order, projections)) else rows[i]
  }

  /** The batch leaves none of its groups inline exactly when each row holding one of them is the first
      with its source key. */
  lemma BatchClearsIff(c: Codec, rows: seq<Row>, order: seq<GroupKey>, projections: map<GroupKey, Json>, out: seq<Row>)
    requires Readable(c, rows) && AllFlat(rows)
    requires Projections(order, projections) && FirstCommitted(c, rows, order, projections, out)
    ensures (forall g, a | g in order :: !Inline(c, out, g, a)) <==>
            (forall i, g, a | 0 <= i < |rows| && g in order && Has(c, rows[i], g, a) :: First(rows, i))
  {
    if forall i, g, a | 0 <= i < |rows| && g in order && Has(c, rows[i], g, a) :: First(rows, i) {
      forall g, a, i | g in order && 0 <= i < |out| ensures !Has(c, out[i], g, a) {
        if First(rows, i) { CommittedRow(c, rows[i], order, projections, out[i], g, a); }
      }
    }
    if forall g, a | g in order :: !Inline(c, out, g, a) {
      forall i, g, a | 0 <= i < |rows| && g in order && Has(c, rows[i], g, a) ensures First(rows, i) {
        assert !Inline(c, out, g, a) && !Has(c, out[i], g, a);
      }
    }
  }

  /** Two tenants sharing a source key: the second one's artifact is never rewritten, so the batch changes
      nothing and the next pass finds what this one found. */
  lemma SharedKeyStalls(c: Codec, first: Row, second: Row, g: GroupKey, projections: map<GroupKey, Json>, out: seq<Row>)
    requires first.key == second.key && first.tenant != second.tenant
    requires Concerns(g, second)
    requires g in projections && FirstCommitted(c, [first, second], [g], projections, out)
    ensures out == [first, second]
  {
    var rows := [first, second];
    assert !First(rows, 1) by { assert rows[0].key == rows[1].key; }
    assert First(rows, 0);
    assert Settle(c, first, [g], projections) == Settle(c, first, [g][..0], projections) == first.value;
  }
}
