/** What holds between the passes of a migration, and that a batch keeps it. */
module MigrationState {
  import opened Options
  import opened InlineArtifacts
  import opened InlineRewrites
  import opened InlineReplacement
  import opened InlineRecords
  import opened Registration
  import opened Migration
  import opened MigrationGroups
  import opened MigrationExecutor

  // ----- What holds between passes -----

  function SlotOf(g: GroupKey): ArtifactKey { ArtifactKey(g.tenant, g.id) }

  function SlotsOf(moved: set<GroupKey>): set<ArtifactKey> { set g | g in moved :: SlotOf(g) }

  // Row by row, what is inline is what was inline at the start, without the groups that were moved.
  ghost predicate RowKept(c: Codec, was: Row, row: Row, moved: set<GroupKey>, g: GroupKey, a: Artifact) {
    Has(c, row, g, a) <==> Has(c, was, g, a) && g !in moved
  }

  ghost predicate RowsKept(c: Codec, start: seq<Row>, rows: seq<Row>, moved: set<GroupKey>) {
    && |rows| == |start|
    && (forall i | 0 <= i < |rows| :: rows[i] == start[i].(value := rows[i].value))
    && (forall i, g, a | 0 <= i < |rows| :: RowKept(c, start[i], rows[i], moved, g, a))
  }

  // Who made the artifacts of a group, as its first row says.
  function MadeBy(g: GroupKey, row: Row): Producer {
    Producer(row.origin.owner, g.task, row.origin.context,
             if row.origin.message == "" then None else Some(row.origin.message),
             if row.origin.dispatch == "" then None else Some(row.origin.dispatch))
  }

  // A group that was moved is registered with the record of its artifact, for the producer in its first row.
  ghost predicate Moved(s: Store, start: seq<Row>, moved: set<GroupKey>, t: Tables, i: int, g: GroupKey, a: Artifact) {
    g in moved && Inline(s.codec, start, g, a) && Leads(s.codec, start, i, g) ==>
      RecordOf(s, a).Some? && Stored(t, g.tenant, MadeBy(g, start[i]), RecordOf(s, a).value)
  }

  // What is free is what was free before, but for the moved groups.
  ghost predicate Open(before: Tables, moved: set<GroupKey>, t: Tables, e: Entry) {
    Vacant(t, e) <==> Vacant(before, e) && ArtifactKeyOf(e) !in SlotsOf(moved)
  }

  ghost predicate Recorded(s: Store, start: seq<Row>, before: Tables, moved: set<GroupKey>, t: Tables) {
    && Grows(before, t) && t.manifests.Keys == before.manifests.Keys + SlotsOf(moved)
    && (forall i, g, a :: Moved(s, start, moved, t, i, g, a))
    && (forall e :: Open(before, moved, t, e))
  }

  // The artifact can be given a manifest, and nothing of it is registered.
  ghost predicate Fit(s: Store, before: Tables, g: GroupKey, o: Origin, a: Artifact) {
    Preparable(s, g, o, a) && Vacant(before, EntryOf(s, g, o, a, 0))
  }

  ghost predicate FitAt(s: Store, before: Tables, start: seq<Row>, which: set<GroupKey>, i: int, g: GroupKey,
                        a: Artifact) {
    g in which && Leads(s.codec, start, i, g) && Has(s.codec, start[i], g, a) ==> Fit(s, before, g, start[i].origin, a)
  }

  ghost predicate Unshared(which: set<GroupKey>) {
    forall g, h | g in which && h in which && g != h :: SlotOf(g) != SlotOf(h)
  }

  // These groups can be moved: each is fit, by the first row that has it, and no two share tenant and id.
  ghost predicate Movable(s: Store, before: Tables, start: seq<Row>, which: set<GroupKey>) {
    Unshared(which) && forall i, g, a :: FitAt(s, before, start, which, i, g, a)
  }

  ghost predicate Sound(s: Store, start: seq<Row>, before: Tables, rows: seq<Row>, moved: set<GroupKey>, t: Tables,
                        n: nat) {
    && Workable(s.codec, rows) && DistinctKeys(rows) && Agreeing(s.codec, rows)
    && RowsKept(s.codec, start, rows, moved) && moved <= InlineGroups(s.codec, start)
    && Recorded(s, start, before, moved, t) && Movable(s, before, start, moved)
    && Referential(t) && Below(t, n)
  }

  // ----- One pass -----

  lemma KeptLead(c: Codec, start: seq<Row>, rows: seq<Row>, moved: set<GroupKey>, i: int, g: GroupKey)
    requires RowsKept(c, start, rows, moved) && g !in moved
    ensures Leads(c, rows, i, g) <==> Leads(c, start, i, g)
  {
    if 0 <= i < |rows| {
      forall j, a | 0 <= j <= i ensures Has(c, rows[j], g, a) <==> Has(c, start[j], g, a) {
        assert RowKept(c, start[j], rows[j], moved, g, a);
      }
    }
  }

  lemma KeptGroups(c: Codec, start: seq<Row>, rows: seq<Row>, moved: set<GroupKey>)
    requires RowsKept(c, start, rows, moved)
    ensures forall g, a :: Inline(c, rows, g, a) <==> Inline(c, start, g, a) && g !in moved
    ensures InlineGroups(c, rows) == InlineGroups(c, start) - moved
  {
    forall g, a ensures Inline(c, rows, g, a) <==> Inline(c, start, g, a) && g !in moved {
      if Inline(c, rows, g, a) {
        var i :| 0 <= i < |rows| && Has(c, rows[i], g, a);
        assert RowKept(c, start[i], rows[i], moved, g, a);
      }
      if Inline(c, start, g, a) && g !in moved {
        var i :| 0 <= i < |start| && Has(c, start[i], g, a);
        assert RowKept(c, start[i], rows[i], moved, g, a);
      }
    }
    forall g ensures g in InlineGroups(c, rows) <==> g in InlineGroups(c, start) && g !in moved {
      InlineGroupsAre(c, rows, g);
      InlineGroupsAre(c, start, g);
    }
  }

  // Two artifacts of one group in agreeing rows are the same.
  lemma OneArtifact(c: Codec, rows: seq<Row>, i: nat, g: GroupKey, a: Artifact, b: Artifact)
    requires Agreeing(c, rows) && i < |rows| && Has(c, rows[i], g, a) && Inline(c, rows, g, b)
    ensures a == b
  {
    var j :| 0 <= j < |rows| && Has(c, rows[j], g, b);
    assert Has(c, rows[i], KeyFor(rows[i], a), a) && Has(c, rows[j], KeyFor(rows[i], a), b);
  }

  // The group as found in this pass is the one of the start.
  lemma GroupSource(c: Codec, start: seq<Row>, rows: seq<Row>, moved: set<GroupKey>, groups: map<GroupKey, Group>,
                    g: GroupKey)
    returns (i: int)
    requires RowsKept(c, start, rows, moved) && Agreeing(c, rows) && Grouped(c, rows, groups) && g in groups &&
             Led(c, rows, groups, g)
    ensures g !in moved && groups[g].artifact.id == g.id && Leads(c, start, i, g)
    ensures groups[g].origin == start[i].origin && Has(c, start[i], g, groups[g].artifact)
  {
    var seen :| AllSeen(c, rows, seen) && Tally(seen, groups);
    GroupIsInline(c, rows, seen, groups, g);
    i :| Leads(c, rows, i, g) && groups[g].origin == rows[i].origin;
    var a :| Has(c, rows[i], g, a);
    OneArtifact(c, rows, i, g, a, groups[g].artifact);
    assert RowKept(c, start[i], rows[i], moved, g, a);
    KeptLead(c, start, rows, moved, i, g);
  }

  ghost predicate Chosen(c: Codec, rows: seq<Row>, groups: map<GroupKey, Group>, order: seq<GroupKey>) {
    Grouped(c, rows, groups) && Distinct(order) && forall g | g in order :: g in groups && Led(c, rows, groups, g)
  }

  // What the entry of a group looks up, whatever its locator.
  lemma EntryLooksUp(s: Store, t: Tables, g: GroupKey, o: Origin, a: Artifact, locator: nat)
    requires RecordOf(s, a).Some? && a.id == g.id
    ensures ArtifactKeyOf(EntryOf(s, g, o, a, locator)) == SlotOf(g)
    ensures Vacant(t, EntryOf(s, g, o, a, locator)) <==> Vacant(t, EntryOf(s, g, o, a, 0))
  {
  }

  ghost predicate Welcome(s: Store, t: Tables, groups: map<GroupKey, Group>, g: GroupKey)
    requires g in groups
  {
    && groups[g].artifact.id == g.id && Preparable(s, g, groups[g].origin, groups[g].artifact)
    && Vacant(t, EntryOf(s, g, groups[g].origin, groups[g].artifact, 0))
  }

  // Accepting a batch, group by group.
  lemma AcceptedIff(s: Store, t: Tables, groups: map<GroupKey, Group>, order: seq<GroupKey>, n: nat)
    requires Distinct(order) && forall g | g in order :: g in groups && groups[g].artifact.id == g.id
    ensures Accepted(s, t, groups, order, n) <==>
              Unshared(Keys(order)) && forall g | g in order :: Welcome(s, t, groups, g)
  {
    if AllPreparable(s, groups, order) {
      var batch := Entries(s, groups, order, n);
      forall i | 0 <= i < |order|
        ensures ArtifactKeyOf(batch[i]) == SlotOf(order[i]) &&
                (Vacant(t, batch[i]) <==> Welcome(s, t, groups, order[i]))
      {
        EntryLooksUp(s, t, order[i], groups[order[i]].origin, groups[order[i]].artifact, n + i);
      }
      ApartIff(order, batch);
      if forall g | g in order :: Welcome(s, t, groups, g) {
        forall i | 0 <= i < |batch| ensures Vacant(t, batch[i]) { assert Welcome(s, t, groups, order[i]); }
      }
      if Admits(t, batch) {
        forall g | g in order ensures Welcome(s, t, groups, g) {
          var i :| 0 <= i < |order| && order[i] == g;
          assert Vacant(t, batch[i]);
        }
      }
    }
  }

  lemma ApartIff(order: seq<GroupKey>, batch: seq<Entry>)
    requires Distinct(order) && |batch| == |order| && forall i | 0 <= i < |order| ::
               ArtifactKeyOf(batch[i]) == SlotOf(order[i])
    ensures Apart(batch) <==> Unshared(Keys(order))
  {
    if Apart(batch) {
      forall g, h | g in Keys(order) && h in Keys(order) && g != h ensures SlotOf(g) != SlotOf(h) {
        var i :| 0 <= i < |order| && order[i] == g;
        var j :| 0 <= j < |order| && order[j] == h;
        assert i < j ==> !SameSlot(batch[i], batch[j]);
        assert j < i ==> !SameSlot(batch[j], batch[i]);
      }
    }
    if Unshared(Keys(order)) {
      forall i, j | 0 <= i < j < |batch| ensures !SameSlot(batch[i], batch[j]) {
        assert order[i] in Keys(order) && order[j] in Keys(order);
      }
    }
  }

  lemma MovableIsWelcome(s: Store, start: seq<Row>, before: Tables, rows: seq<Row>, moved: set<GroupKey>, t: Tables,
                         groups: map<GroupKey, Group>, g: GroupKey)
    requires RowsKept(s.codec, start, rows, moved) && moved <= InlineGroups(s.codec, start) && Agreeing(s.codec, rows)
    requires Grouped(s.codec, rows, groups) && g in groups && Led(s.codec, rows, groups, g)
    requires Movable(s, before, start, InlineGroups(s.codec, start)) && forall e :: Open(before, moved, t, e)
    ensures g in InlineGroups(s.codec, start) && Welcome(s, t, groups, g)
  {
    var a := groups[g].artifact;
    var i := GroupSource(s.codec, start, rows, moved, groups, g);
    assert Inline(s.codec, start, g, a);
    InlineGroupsAre(s.codec, start, g);
    assert FitAt(s, before, start, InlineGroups(s.codec, start), i, g, a);
    EntryLooksUp(s, t, g, groups[g].origin, a, 0);
    assert Open(before, moved, t, EntryOf(s, g, groups[g].origin, a, 0));
  }

  /** If all inline groups can be moved, any batch of them is accepted. */
  lemma MovableIsAccepted(s: Store, start: seq<Row>, before: Tables, rows: seq<Row>, moved: set<GroupKey>, t: Tables,
                          n: nat,
                          groups: map<GroupKey, Group>, order: seq<GroupKey>)
    requires Sound(s, start, before, rows, moved, t, n) && Chosen(s.codec, rows, groups, order)
    requires Movable(s, before, start, InlineGroups(s.codec, start))
    ensures Accepted(s, t, groups, order, n)
  {
    forall g | g in order ensures g in InlineGroups(s.codec, start) && Welcome(s, t, groups, g) {
      MovableIsWelcome(s, start, before, rows, moved, t, groups, g);
    }
    AcceptedIff(s, t, groups, order, n);
  }

  lemma GrowsTwice(t: Tables, u: Tables, v: Tables)
    requires Grows(t, u) && Grows(u, v)
    ensures Grows(t, v)
  {
  }

  lemma BatchKeepsRows(c: Codec, start: seq<Row>, rows: seq<Row>, moved: set<GroupKey>, order: seq<GroupKey>,
                       projections: map<GroupKey, Json>, out: seq<Row>)
    requires RowsKept(c, start, rows, moved) && Workable(c, rows)
    requires Projections(order, projections) && Committed(c, rows, order, projections, out)
    ensures RowsKept(c, start, out, moved + Keys(order))
  {
    forall i, g, a | 0 <= i < |out| ensures RowKept(c, start[i], out[i], moved + Keys(order), g, a) {
      assert RowKept(c, start[i], rows[i], moved, g, a);
      CommittedRow(c, rows[i], order, projections, out[i], g, a);
    }
  }

  lemma EntrySlots(s: Store, groups: map<GroupKey, Group>, order: seq<GroupKey>, n: nat)
    requires forall g | g in order ::
               g in groups && groups[g].artifact.id == g.id && RecordOf(s, groups[g].artifact).Some?
    ensures var batch := Entries(s, groups, order, n);
            |batch| == |order| && forall i | 0 <= i < |order| :: ArtifactKeyOf(batch[i]) == SlotOf(order[i])
  {
  }

  // The entries of a batch, seen as groups.
  lemma BatchSlots(order: seq<GroupKey>, batch: seq<Entry>)
    requires |batch| == |order| && forall i | 0 <= i < |order| :: ArtifactKeyOf(batch[i]) == SlotOf(order[i])
    ensures Slots(batch) == SlotsOf(Keys(order))
  {
    forall k | k in Slots(batch) ensures k in SlotsOf(Keys(order)) {
      var i :| 0 <= i < |batch| && k == ArtifactKeyOf(batch[i]);
      assert order[i] in Keys(order);
    }
    forall k | k in SlotsOf(Keys(order)) ensures k in Slots(batch) {
      var g :| g in Keys(order) && k == SlotOf(g);
      var i :| 0 <= i < |order| && order[i] == g;
      assert k == ArtifactKeyOf(batch[i]);
    }
  }

  lemma TakenIffSlot(batch: seq<Entry>, e: Entry)
    ensures TakenBy(batch, e) <==> ArtifactKeyOf(e) in Slots(batch)
  {
    if TakenBy(batch, e) {
      var i :| 0 <= i < |batch| && SameSlot(batch[i], e);
      assert ArtifactKeyOf(batch[i]) in Slots(batch);
    }
    if ArtifactKeyOf(e) in Slots(batch) {
      var i :| 0 <= i < |batch| && ArtifactKeyOf(e) == ArtifactKeyOf(batch[i]);
      assert SameSlot(batch[i], e);
    }
  }

  ghost predicate AllStored(u: Tables, batch: seq<Entry>) {
    forall i | 0 <= i < |batch| :: Stored(u, batch[i].tenant, batch[i].producer, batch[i].record)
  }

  lemma GroupIsStored(s: Store, u: Tables, n: nat, groups: map<GroupKey, Group>, order: seq<GroupKey>, g: GroupKey)
    requires (forall h | h in order :: h in groups && RecordOf(s, groups[h].artifact).Some?) && g in order
    requires AllStored(u, Entries(s, groups, order, n))
    ensures var e := EntryOf(s, g, groups[g].origin, groups[g].artifact, 0); Stored(u, g.tenant, e.producer, e.record)
  {
    var j :| 0 <= j < |order| && order[j] == g;
    var e := Entries(s, groups, order, n)[j];
    assert Stored(u, e.tenant, e.producer, e.record);
  }

  lemma SameAsStart(c: Codec, start: seq<Row>, rows: seq<Row>, moved: set<GroupKey>, groups: map<GroupKey, Group>,
                    g: GroupKey, a: Artifact)
    requires RowsKept(c, start, rows, moved) && Agreeing(c, rows) && Grouped(c, rows, groups) && g in groups &&
             Led(c, rows, groups, g)
    requires Inline(c, start, g, a)
    ensures a == groups[g].artifact
  {
    var i := GroupSource(c, start, rows, moved, groups, g);
    KeptGroups(c, start, rows, moved);
    assert RowKept(c, start[i], rows[i], moved, g, groups[g].artifact);
    OneArtifact(c, rows, i, g, groups[g].artifact, a);
  }

  lemma BatchIsMoved(s: Store, start: seq<Row>, rows: seq<Row>, moved: set<GroupKey>, t: Tables, u: Tables, n: nat,
                     groups: map<GroupKey, Group>, order: seq<GroupKey>, i: int, g: GroupKey, a: Artifact)
    requires RowsKept(s.codec, start, rows, moved) && Agreeing(s.codec, rows) && Chosen(s.codec, rows, groups, order)
    requires Moved(s, start, moved, t, i, g, a) && Grows(t, u)
    requires (forall h | h in order :: RecordOf(s, groups[h].artifact).Some?) &&
             AllStored(u, Entries(s, groups, order, n))
    ensures Moved(s, start, moved + Keys(order), u, i, g, a)
  {
    if Inline(s.codec, start, g, a) && Leads(s.codec, start, i, g) {
      if g in moved {
        StoredKept(t, u, g.tenant, MadeBy(g, start[i]), RecordOf(s, a).value);
      } else if g in order {
        SameAsStart(s.codec, start, rows, moved, groups, g, a);
        GroupIsStored(s, u, n, groups, order, g);
        var j := GroupSource(s.codec, start, rows, moved, groups, g);
        assert i == j;
      }
    }
  }

  lemma BatchIsOpen(before: Tables, moved: set<GroupKey>, t: Tables, u: Tables, order: seq<GroupKey>, batch: seq<Entry>)
    requires Slots(batch) == SlotsOf(Keys(order))
    requires (forall e :: Open(before, moved, t, e)) && (forall e :: Frees(t, batch, u, e))
    ensures SlotsOf(moved + Keys(order)) == SlotsOf(moved) + SlotsOf(Keys(order))
    ensures forall e :: Open(before, moved + Keys(order), u, e)
  {
    assert SlotsOf(moved + Keys(order)) == SlotsOf(moved) + SlotsOf(Keys(order));
    forall e ensures Open(before, moved + Keys(order), u, e) {
      assert Open(before, moved, t, e) && Frees(t, batch, u, e);
      TakenIffSlot(batch, e);
    }
  }

  lemma BatchIsRecorded(s: Store, start: seq<Row>, before: Tables, rows: seq<Row>, moved: set<GroupKey>, t: Tables,
                        u: Tables, n: nat,
                        groups: map<GroupKey, Group>, order: seq<GroupKey>)
    requires RowsKept(s.codec, start, rows, moved) && Agreeing(s.codec, rows) && Chosen(s.codec, rows, groups, order)
    requires Recorded(s, start, before, moved, t)
    requires forall g | g in order :: groups[g].artifact.id == g.id && RecordOf(s, groups[g].artifact).Some?
    requires Registered(t, Entries(s, groups, order, n), n, u)
    ensures Recorded(s, start, before, moved + Keys(order), u)
  {
    var batch := Entries(s, groups, order, n);
    GrowsTwice(before, t, u);
    EntrySlots(s, groups, order, n);
    BatchSlots(order, batch);
    BatchIsOpen(before, moved, t, u, order, batch);
    forall i, g, a ensures Moved(s, start, moved + Keys(order), u, i, g, a) {
      assert Moved(s, start, moved, t, i, g, a);
      BatchIsMoved(s, start, rows, moved, t, u, n, groups, order, i, g, a);
    }
  }

  lemma BatchIsMovable(s: Store, start: seq<Row>, before: Tables, rows: seq<Row>, moved: set<GroupKey>, t: Tables,
                       groups: map<GroupKey, Group>, order: seq<GroupKey>)
    requires RowsKept(s.codec, start, rows, moved) && Agreeing(s.codec, rows) && Chosen(s.codec, rows, groups, order)
    requires Movable(s, before, start, moved) && (forall e :: Open(before, moved, t, e))
    requires Unshared(Keys(order)) && forall g | g in order :: Welcome(s, t, groups, g)
    ensures Movable(s, before, start, moved + Keys(order))
  {
    forall g | g in order
      ensures SlotOf(g) !in SlotsOf(moved) && Fit(s, before, g, groups[g].origin, groups[g].artifact)
    {
      var e := EntryOf(s, g, groups[g].origin, groups[g].artifact, 0);
      EntryLooksUp(s, t, g, groups[g].origin, groups[g].artifact, 0);
      assert Open(before, moved, t, e);
    }
    forall g, h | g in moved + Keys(order) && h in moved + Keys(order) && g != h ensures SlotOf(g) != SlotOf(h) {
      if g in moved { assert SlotOf(g) in SlotsOf(moved); }
      if h in moved { assert SlotOf(h) in SlotsOf(moved); }
    }
    forall i, g, a ensures FitAt(s, before, start, moved + Keys(order), i, g, a) {
      assert FitAt(s, before, start, moved, i, g, a);
      if g in order && Leads(s.codec, start, i, g) && Has(s.codec, start[i], g, a) {
        var j := GroupSource(s.codec, start, rows, moved, groups, g);
        assert i == j;
        assert RowKept(s.codec, start[i], rows[i], moved, g, a);
        assert RowKept(s.codec, start[i], rows[i], moved, g, groups[g].artifact);
        assert Inline(s.codec, rows, g, a);
        OneArtifact(s.codec, rows, i, g, groups[g].artifact, a);
      }
    }
  }

  lemma BatchIsSound(s: Store, start: seq<Row>, before: Tables, rows: seq<Row>, moved: set<GroupKey>, t: Tables, n: nat,
                     groups: map<GroupKey, Group>, order: seq<GroupKey>, seal: GroupKey -> Seals, u: Tables,
                     out: seq<Row>)
    requires Sound(s, start, before, rows, moved, t, n) && Chosen(s.codec, rows, groups, order) &&
             Accepted(s, t, groups, order, n)
    requires Registered(t, Entries(s, groups, order, n), n, u)
    requires forall g | g in order :: g in Project(s, groups, order, seal)
    requires Committed(s.codec, rows, order, Project(s, groups, order, seal), out)
    ensures Sound(s, start, before, out, moved + Keys(order), u, n + |order|)
  {
    forall g | g in order ensures groups[g].artifact.id == g.id && g in InlineGroups(s.codec, start) {
      var i := GroupSource(s.codec, start, rows, moved, groups, g);
      assert Inline(s.codec, start, g, groups[g].artifact);
      InlineGroupsAre(s.codec, start, g);
    }
    GroupsProject(s, rows, groups, order, seal);
    BatchIsExact(s.codec, rows, order, Project(s, groups, order, seal), out);
    BatchKeepsRows(s.codec, start, rows, moved, order, Project(s, groups, order, seal), out);
    AcceptedIff(s, t, groups, order, n);
    BatchIsRecorded(s, start, before, rows, moved, t, u, n, groups, order);
    BatchIsMovable(s, start, before, rows, moved, t, groups, order);
  }

  // ----- What the documents look like -----

  // The document as it was, with the objects of its moved artifacts replaced and nothing else.
  ghost predicate RowWritten(c: Codec, was: Row, row: Row, shown: map<GroupKey, Json>) {
    row.value == Replace(was.value, RowShown(c, was, shown))
  }

  // What a moved artifact is replaced by is the presentation of its record.
  ghost predicate ShownRight(s: Store, seal: GroupKey -> Seals, start: seq<Row>, shown: map<GroupKey, Json>,
                             g: GroupKey, a: Artifact) {
    g in shown && Inline(s.codec, start, g, a) ==>
      RecordOf(s, a).Some? && shown[g] == ProjectOne(RecordOf(s, a).value, seal(g))
  }

  ghost predicate Written(s: Store, seal: GroupKey -> Seals, start: seq<Row>, rows: seq<Row>,
                          shown: map<GroupKey, Json>) {
    && |rows| == |start|
    && (forall i | 0 <= i < |rows| :: RowWritten(s.codec, start[i], rows[i], shown))
    && (forall g, a :: ShownRight(s, seal, start, shown, g, a))
  }

  lemma ShownIsProjection(r: Record, d: Seals)
    ensures ProjectionOf(ProjectOne(r, d), r.id)
  {
    ShownIsPresented(r.id, Some(r.name), r.description, r.mediaType, d.contentDigest, |r.bytes|, d.manifestDigest);
  }

  lemma RowIsProjecting(s: Store, seal: GroupKey -> Seals, start: seq<Row>, shown: map<GroupKey, Json>, i: nat)
    requires i < |start| && forall g, a :: ShownRight(s, seal, start, shown, g, a)
    ensures Projecting(RowShown(s.codec, start[i], shown))
  {
    var m := RowShown(s.codec, start[i], shown);
    forall id | id in m ensures ProjectionOf(m[id], id) {
      var g := GroupIn(start[i], id);
      RowIdsAre(s.codec, start[i], id);
      var a :| Has(s.codec, start[i], g, a);
      assert Inline(s.codec, start, g, a) && ShownRight(s, seal, start, shown, g, a);
      ShownIsProjection(RecordOf(s, a).value, seal(g));
    }
  }

  lemma RowIdsLeft(c: Codec, was: Row, row: Row, moved: set<GroupKey>, id: string)
    requires row == was.(value := row.value) && forall g, a :: RowKept(c, was, row, moved, g, a)
    ensures id in RowIds(c, row) <==> id in RowIds(c, was) && GroupIn(was, id) !in moved
  {
    RowIdsAre(c, was, id);
    RowIdsAre(c, row, id);
    var g := GroupIn(was, id);
    assert GroupIn(row, id) == g;
    if id in RowIds(c, row) {
      var a :| Has(c, row, g, a);
      assert RowKept(c, was, row, moved, g, a);
    }
    if id in RowIds(c, was) && g !in moved {
      var a :| Has(c, was, g, a);
      assert RowKept(c, was, row, moved, g, a);
    }
  }

  lemma RowShownGrows(c: Codec, was: Row, row: Row, shown: map<GroupKey, Json>, more: map<GroupKey, Json>)
    requires row == was.(value := row.value) && forall g, a :: RowKept(c, was, row, shown.Keys, g, a)
    requires more.Keys !! shown.Keys
    ensures RowShown(c, was, shown).Keys !! RowShown(c, row, more).Keys
    ensures RowShown(c, was, shown + more) == RowShown(c, was, shown) + RowShown(c, row, more)
  {
    forall id ensures id in RowIds(c, row) <==> id in RowIds(c, was) && GroupIn(was, id) !in shown {
      RowIdsLeft(c, was, row, shown.Keys, id);
    }
    assert forall id :: GroupIn(row, id) == GroupIn(was, id);
    var m, n, both := RowShown(c, was, shown), RowShown(c, row, more), RowShown(c, was, shown + more);
    forall id | id in n ensures id !in m { assert GroupIn(was, id) !in shown; }
    forall id ensures id in both <==> id in m || id in n {
      assert GroupIn(was, id) in more ==> GroupIn(was, id) !in shown;
    }
    assert both == m + n;
  }

  lemma RowIsRewritten(c: Codec, was: Row, row: Row, out: Row, shown: map<GroupKey, Json>, more: map<GroupKey, Json>)
    requires row == was.(value := row.value) && forall g, a :: RowKept(c, was, row, shown.Keys, g, a)
    requires more.Keys !! shown.Keys && Projecting(RowShown(c, was, shown))
    requires RowWritten(c, was, row, shown) && out.value == Replace(row.value, RowShown(c, row, more))
    ensures RowWritten(c, was, out, shown + more)
  {
    RowShownGrows(c, was, row, shown, more);
    ReplaceTwice(was.value, RowShown(c, was, shown), RowShown(c, row, more));
  }

  lemma BatchShowsRight(s: Store, seal: GroupKey -> Seals, start: seq<Row>, rows: seq<Row>, shown: map<GroupKey, Json>,
                        groups: map<GroupKey, Group>, order: seq<GroupKey>, g: GroupKey, a: Artifact)
    requires RowsKept(s.codec, start, rows, shown.Keys) && Agreeing(s.codec, rows) &&
             Chosen(s.codec, rows, groups, order)
    requires AllPreparable(s, groups, order) && ShownRight(s, seal, start, shown, g, a)
    ensures ShownRight(s, seal, start, shown + Project(s, groups, order, seal), g, a)
  {
    if g in order && Inline(s.codec, start, g, a) { SameAsStart(s.codec, start, rows, shown.Keys, groups, g, a); }
  }

  lemma AllTaken(s: Store, seal: GroupKey -> Seals, groups: map<GroupKey, Group>, order: seq<GroupKey>)
    requires forall g | g in order :: g in groups && RecordOf(s, groups[g].artifact).Some?
    ensures Project(s, groups, order, seal).Keys == Keys(order)
    ensures Taken(order, Project(s, groups, order, seal)) == Project(s, groups, order, seal)
  {
  }

  lemma BatchIsApart(s: Store, start: seq<Row>, rows: seq<Row>, moved: set<GroupKey>,
                     groups: map<GroupKey, Group>, order: seq<GroupKey>)
    requires RowsKept(s.codec, start, rows, moved) && Agreeing(s.codec, rows) && Chosen(s.codec, rows, groups, order)
    ensures Keys(order) !! moved
  {
    forall g | g in Keys(order) ensures g !in moved { var i := GroupSource(s.codec, start, rows, moved, groups, g); }
  }

  lemma BatchIsWritten(s: Store, seal: GroupKey -> Seals, start: seq<Row>, rows: seq<Row>, shown: map<GroupKey, Json>,
                       groups: map<GroupKey, Group>, order: seq<GroupKey>, out: seq<Row>)
    requires Workable(s.codec, rows) && Agreeing(s.codec, rows) && RowsKept(s.codec, start, rows, shown.Keys)
    requires Chosen(s.codec, rows, groups, order) && AllPreparable(s, groups, order) &&
             Written(s, seal, start, rows, shown)
    requires forall g | g in order :: g in Project(s, groups, order, seal)
    requires Committed(s.codec, rows, order, Project(s, groups, order, seal), out)
    ensures Written(s, seal, start, out, shown + Project(s, groups, order, seal))
  {
    var more := Project(s, groups, order, seal);
    GroupsProject(s, rows, groups, order, seal);
    AllTaken(s, seal, groups, order);
    BatchIsApart(s, start, rows, shown.Keys, groups, order);
    forall i | 0 <= i < |out| ensures RowWritten(s.codec, start[i], out[i], shown + more) {
      SettleReplaces(s.codec, rows[i], order, more);
      RowIsProjecting(s, seal, start, shown, i);
      forall g, a ensures RowKept(s.codec, start[i], rows[i], shown.Keys, g, a) {}
      RowIsRewritten(s.codec, start[i], rows[i], out[i], shown, more);
    }
    forall g, a ensures ShownRight(s, seal, start, shown + more, g, a) {
      assert ShownRight(s, seal, start, shown, g, a);
      BatchShowsRight(s, seal, start, rows, shown, groups, order, g, a);
    }
  }
}
