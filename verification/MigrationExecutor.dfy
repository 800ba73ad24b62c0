/** One pass of the migration: select a batch of groups, prepare, register and rewrite it. */
module MigrationExecutor {
  import opened Options
  import opened InlineArtifacts
  import opened InlineRewrites
  import opened InlineRecords
  import opened Registration
  import opened Migration
  import opened MigrationGroups

  // ----- Preparing -----

  predicate Identity(x: string) { 1 <= |x| <= 256 && forall i | 0 <= i < |x| :: '!' <= x[i] <= '~' }

  // The tenant is the first segment of the encryption domain.
  predicate Producible(tenant: string, task: string, o: Origin) {
    && Identity(tenant) && '/' !in tenant && |tenant + "/confidential"| <= 256
    && Identity(task) && Identity(o.owner) && Identity(o.context)
    && (o.message == "" || Identity(o.message)) && (o.dispatch == "" || Identity(o.dispatch))
    && 0 < o.revision
  }

  predicate Preparable(s: Store, g: GroupKey, o: Origin, a: Artifact) {
    Producible(g.tenant, g.task, o) && RecordOf(s, a).Some?
  }

  function NonEmpty(x: string): Option<string> { if x == "" then None else Some(x) }

  function EntryOf(s: Store, g: GroupKey, o: Origin, a: Artifact, locator: nat): Entry
    requires RecordOf(s, a).Some?
  {
    Entry(g.tenant, Producer(o.owner, g.task, o.context, NonEmpty(o.message), NonEmpty(o.dispatch)),
          RecordOf(s, a).value, s.generation, locator)
  }

  ghost predicate AllPreparable(s: Store, groups: map<GroupKey, Group>, order: seq<GroupKey>)
    requires forall g | g in order :: g in groups
  {
    forall g | g in order :: Preparable(s, g, groups[g].origin, groups[g].artifact)
  }

  function Entries(s: Store, groups: map<GroupKey, Group>, order: seq<GroupKey>, n: nat): seq<Entry>
    requires forall g | g in order :: g in groups && RecordOf(s, groups[g].artifact).Some?
  {
    seq(|order|, i requires 0 <= i < |order| =>
      EntryOf(s, order[i], groups[order[i]].origin, groups[order[i]].artifact, n + i))
  }

  /** Builds manifests and stages the bytes; refuses exactly what cannot be given a manifest. */
  method PrepareBatch(s: Store, groups: map<GroupKey, Group>, order: seq<GroupKey>,
                      n: nat) returns (r: Result<seq<Entry>>)
    requires forall g | g in order :: g in groups
    ensures r.Ok? <==> AllPreparable(s, groups, order)
    ensures r.Ok? ==> r.value == Entries(s, groups, order, n)
  {
    var batch, i := [], 0;
    while i < |order|
      invariant 0 <= i <= |order| && |batch| == i
      invariant forall j | 0 <= j < i :: Prepared(s, groups, order[j], n + j, batch[j])
    {
      var g := order[i];
      if !Preparable(s, g, groups[g].origin, groups[g].artifact) {
        return Err;
      }
      batch := batch + [EntryOf(s, g, groups[g].origin, groups[g].artifact, n + i)];
      i := i + 1;
    }
    AllPrepared(s, groups, order, n, batch);
    return Ok(batch);
  }

  predicate Prepared(s: Store, groups: map<GroupKey, Group>, g: GroupKey, locator: nat, e: Entry)
    requires g in groups
  {
    && Preparable(s, g, groups[g].origin, groups[g].artifact)
    && e == EntryOf(s, g, groups[g].origin, groups[g].artifact, locator)
  }

  lemma AllPrepared(s: Store, groups: map<GroupKey, Group>, order: seq<GroupKey>, n: nat, batch: seq<Entry>)
    requires (forall g | g in order :: g in groups) && |batch| == |order|
    requires forall j | 0 <= j < |order| :: Prepared(s, groups, order[j], n + j, batch[j])
    ensures AllPreparable(s, groups, order) && batch == Entries(s, groups, order, n)
  {
    forall g | g in order ensures Preparable(s, g, groups[g].origin, groups[g].artifact) {
      var j :| 0 <= j < |order| && order[j] == g;
      assert Prepared(s, groups, order[j], n + j, batch[j]);
    }
  }

  lemma EntriesAreStaged(s: Store, groups: map<GroupKey, Group>, order: seq<GroupKey>, n: nat)
    requires forall g | g in order :: g in groups && RecordOf(s, groups[g].artifact).Some?
    ensures Staged(Entries(s, groups, order, n), n)
  {
  }

  // ----- One batch -----

  predicate Selected(order: seq<GroupKey>, groups: map<GroupKey, Group>, projections: map<GroupKey, Json>) {
    forall g | g in order :: g in groups && g in projections
  }

  // The row's document with the batch applied; fails where reading or rewriting fails.
  method SettleRow(c: Codec, row: Row, order: seq<GroupKey>,
                   projections: map<GroupKey, Json>) returns (r: Result<(Json, nat)>)
    requires forall g | g in order :: g in projections
    ensures r.Ok? ==> r.value.0 == Settle(c, row, order, projections)
    ensures r.Ok? && r.value.1 == 0 ==> r.value.0 == row.value
    ensures Flat(row.value) && Extract(c, row.value).Ok? && Projections(order, projections) ==> r.Ok?
  {
    var value, changed, j := row.value, 0, 0;
    while j < |order|
      invariant 0 <= j <= |order|
      invariant value == Settle(c, row, order[..j], projections)
      invariant changed == 0 ==> value == row.value
    {
      var g := order[j];
      assert order[..j + 1][..j] == order[..j];
      if Concerns(g, row) {
        var present := Extract(c, value);
        if present.Err? {
          if Flat(row.value) && Extract(c, row.value).Ok? && Projections(order, projections) {
            SettleIsExact(c, row, order[..j], projections);
          }
          return Err;
        }
        if Mentions(present.value, g.id) {
          ExtractedMatches(c, value, g.id);
          var rewritten := RewriteAll(value, g.id, projections[g]);
          value, changed := rewritten.value.0, changed + rewritten.value.1;
        }
      }
      j := j + 1;
    }
    assert order[..j] == order;
    return Ok((value, changed));
  }

  lemma {:induction false} UnaffectedSettles(c: Codec, row: Row, order: seq<GroupKey>, projections: map<GroupKey, Json>)
    requires forall g | g in order :: g in projections
    requires forall g, a | g in order :: !Has(c, row, g, a)
    ensures Settle(c, row, order, projections) == row.value
    decreases |order|
  {
    if order != [] {
      var n := |order| - 1;
      UnaffectedSettles(c, row, order[..n], projections);
      if Concerns(order[n], row) && Extract(c, row.value).Ok? && Mentions(Extract(c, row.value).value, order[n].id) {
        var list := Extract(c, row.value).value;
        var i :| 0 <= i < |list| && list[i].id == order[n].id;
        assert Has(c, row, order[n], list[i]);
      }
    }
  }

  function Affected(order: seq<GroupKey>, groups: map<GroupKey, Group>): set<SourceKey>
    requires forall g | g in order :: g in groups
  {
    set g, key | g in order && key in groups[g].rows :: key
  }

  // The first row with the key.
  function Find(rows: seq<Row>, key: SourceKey): (i: nat)
    ensures i <= |rows| && (i < |rows| ==> rows[i].key == key)
    ensures forall j | 0 <= j < i :: rows[j].key != key
  {
    if rows == [] then 0 else if rows[0].key == key then 0 else 1 + Find(rows[1..], key)
  }

  ghost predicate Workable(c: Codec, rows: seq<Row>) { Readable(c, rows) && AllFlat(rows) }

  ghost predicate ListsRows(c: Codec, rows: seq<Row>, order: seq<GroupKey>, groups: map<GroupKey, Group>)
    requires forall g | g in order :: g in groups
  {
    && (forall key | key in Affected(order, groups) :: exists i :: 0 <= i < |rows| && rows[i].key == key)
    && (forall i, g, a | 0 <= i < |rows| && g in order && Has(c, rows[i], g, a) ::
        rows[i].key in Affected(order, groups))
  }

  /** The rows of one batch: on readable, flat documents this succeeds, and the first row of every source
      key then reads as `Settle` says. */
  method RewriteRows(c: Codec, rows: seq<Row>, groups: map<GroupKey, Group>, order: seq<GroupKey>,
                     projections: map<GroupKey, Json>)
    returns (r: Result<seq<Row>>, rewritten: nat)
    requires Selected(order, groups, projections)
    ensures Workable(c, rows) && Projections(order, projections) && ListsRows(c, rows, order, groups) ==>
              r.Ok? && FirstCommitted(c, rows, order, projections, r.value)
    ensures r.Ok? ==> |r.value| == |rows|
  {
    rewritten := 0;
    var out := rows;
    ghost var affected := Affected(order, groups);
    var rest := Affected(order, groups);
    while rest != {}
      invariant rest <= affected && |out| == |rows|
      invariant forall i | 0 <= i < |rows| ::
                  out[i] == if rows[i].key in affected - rest && First(rows, i)
                            then rows[i].(value := Settle(c, rows[i], order, projections)) else rows[i]
      decreases |rest|
    {
      var key :| key in rest;
      var at := Find(rows, key);
      if at == |rows| {
        return Err, rewritten;
      }
      var settled := SettleRow(c, rows[at], order, projections);
      if settled.Err? {
        return Err, rewritten;
      }
      if settled.value.1 != 0 {
        out := out[at := rows[at].(value := settled.value.0)];
        rewritten := rewritten + 1;
      }
      rest := rest - {key};
    }
    if Workable(c, rows) && Projections(order, projections) && ListsRows(c, rows, order, groups) {
      forall i | 0 <= i < |rows| && rows[i].key !in affected
        ensures Settle(c, rows[i], order, projections) == rows[i].value
      {
        UnaffectedSettles(c, rows[i], order, projections);
      }
    }
    return Ok(out), rewritten;
  }

  /** The transaction of one batch: it commits exactly when every registration is accepted, and then the
      artifacts are registered and the rows rewritten. */
  method CommitBatch(c: Codec, t: Tables, rows: seq<Row>, groups: map<GroupKey, Group>, order: seq<GroupKey>,
                     batch: seq<Entry>, projections: map<GroupKey, Json>, ghost n: nat)
    returns (r: Result<(Tables, seq<Row>)>)
    requires Selected(order, groups, projections) && Referential(t) && Below(t, n) && Staged(batch, n)
    ensures r.Ok? ==> Admits(t, batch) && Registered(t, batch, n, r.value.0)
    ensures Workable(c, rows) && Projections(order, projections) && ListsRows(c, rows, order, groups) ==>
              (r.Ok? <==> Admits(t, batch)) && (r.Ok? ==> FirstCommitted(c, rows, order, projections, r.value.1))
  {
    var registered := RegisterBatch(t, batch, n);
    if registered.Err? {
      return Err;
    }
    var out, rewritten := RewriteRows(c, rows, groups, order, projections);
    if out.Err? {
      return Err;
    }
    return Ok((registered.value, out.value));
  }

  // ----- Selecting, projecting, running -----

  function Keys(order: seq<GroupKey>): set<GroupKey> { set g | g in order }

  method SelectBatch(groups: set<GroupKey>, batch: nat) returns (order: seq<GroupKey>)
    ensures Keys(order) <= groups && |Keys(order)| == if |groups| < batch then |groups| else batch
    ensures Distinct(order)
  {
    order := [];
    var rest := groups;
    while rest != {} && |order| < batch
      invariant Keys(order) == groups - rest && rest <= groups && |Keys(order)| == |order| <= batch && Distinct(order)
      invariant |groups| == |order| + |rest|
      decreases |rest|
    {
      var g :| g in rest;
      assert Keys(order + [g]) == Keys(order) + {g};
      assert g !in order;
      order, rest := order + [g], rest - {g};
    }
  }

  // The digests of an artifact and of its manifest, as text.
  datatype Seals = Seals(contentDigest: string, manifestDigest: string)

  function ProjectOne(r: Record, d: Seals): Json {
    Shown(r.id, Some(r.name), r.description, r.mediaType, d.contentDigest, |r.bytes|, d.manifestDigest)
  }

  function Project(s: Store, groups: map<GroupKey, Group>, order: seq<GroupKey>,
                   seal: GroupKey -> Seals): map<GroupKey, Json>
    requires forall g | g in order :: g in groups && RecordOf(s, groups[g].artifact).Some?
  {
    map g | g in Keys(order) :: ProjectOne(RecordOf(s, groups[g].artifact).value, seal(g))
  }

  ghost predicate Clean(c: Codec, documents: seq<Json>) {
    forall i | 0 <= i < |documents| :: Extract(c, documents[i]) == Ok([])
  }

  method Rescan(c: Codec, documents: seq<Json>) returns (clean: bool)
    ensures clean <==> Clean(c, documents)
  {
    var i := 0;
    while i < |documents|
      invariant 0 <= i <= |documents|
      invariant forall j | 0 <= j < i :: Extract(c, documents[j]) == Ok([])
    {
      if Extract(c, documents[i]) != Ok([]) {
        return false;
      }
      i := i + 1;
    }
    return true;
  }

  function Values(rows: seq<Row>): seq<Json> { seq(|rows|, i requires 0 <= i < |rows| => rows[i].value) }

  lemma GroupIsInline(c: Codec, rows: seq<Row>, seen: set<Sighting>, groups: map<GroupKey, Group>, g: GroupKey)
    requires AllSeen(c, rows, seen) && Tally(seen, groups) && g in groups
    ensures groups[g].artifact.id == g.id && Inline(c, rows, g, groups[g].artifact)
  {
    var s := Witness(seen, groups, g);
    assert Counted(groups, s) && Sighted(c, rows, s);
    var i :| 0 <= i < |rows| && rows[i] == s.row;
    assert Has(c, rows[i], g, groups[g].artifact);
  }

  lemma GroupsListRows(c: Codec, rows: seq<Row>, groups: map<GroupKey, Group>, order: seq<GroupKey>)
    requires Grouped(c, rows, groups) && forall g | g in order :: g in groups
    ensures ListsRows(c, rows, order, groups)
  {
    var seen :| AllSeen(c, rows, seen) && Tally(seen, groups);
    forall key | key in Affected(order, groups) ensures exists i :: 0 <= i < |rows| && rows[i].key == key {
      var g :| g in order && key in groups[g].rows;
      assert Sourced(seen, g, key);
      var s :| s in seen && Of(s) == g && s.row.key == key;
      assert Sighted(c, rows, s);
      var i :| 0 <= i < |rows| && rows[i] == s.row;
    }
    forall i, g, a | 0 <= i < |rows| && g in order && Has(c, rows[i], g, a)
      ensures rows[i].key in Affected(order, groups)
    {
      assert Sighted(c, rows, Sighting(rows[i], a)) && Counted(groups, Sighting(rows[i], a));
    }
  }

  lemma GroupsProject(s: Store, rows: seq<Row>, groups: map<GroupKey, Group>, order: seq<GroupKey>,
                      seal: GroupKey -> Seals)
    requires Grouped(s.codec, rows, groups) && (forall g | g in order :: g in groups) && AllPreparable(s, groups, order)
    ensures Projections(order, Project(s, groups, order, seal))
  {
    var seen :| AllSeen(s.codec, rows, seen) && Tally(seen, groups);
    forall g | g in order ensures ProjectionOf(Project(s, groups, order, seal)[g], g.id) {
      GroupIsInline(s.codec, rows, seen, groups, g);
      var r, d := RecordOf(s, groups[g].artifact).value, seal(g);
      ShownIsPresented(r.id, Some(r.name), r.description, r.mediaType, d.contentDigest, |r.bytes|, d.manifestDigest);
    }
  }

  // Where source keys are distinct, every row is the first with its key.
  lemma FirstIsAll(c: Codec, rows: seq<Row>, order: seq<GroupKey>, projections: map<GroupKey, Json>, out: seq<Row>)
    requires DistinctKeys(rows) && (forall g | g in order :: g in projections) &&
             FirstCommitted(c, rows, order, projections, out)
    ensures Committed(c, rows, order, projections, out)
  {
    forall i | 0 <= i < |rows| ensures First(rows, i) {}
  }

  ghost predicate Accepted(s: Store, t: Tables, groups: map<GroupKey, Group>, order: seq<GroupKey>, n: nat)
    requires forall g | g in order :: g in groups
  {
    AllPreparable(s, groups, order) && Admits(t, Entries(s, groups, order, n))
  }

  /** Prepares and commits one batch: it goes through exactly when every artifact of it can be given a
      manifest and registered. */
  method RunBatch(s: Store, t: Tables, rows: seq<Row>, groups: map<GroupKey, Group>, order: seq<GroupKey>,
                  seal: GroupKey -> Seals, n: nat)
    returns (r: Result<(Tables, seq<Row>)>)
    requires Referential(t) && Below(t, n) && forall g | g in order :: g in groups
    requires Workable(s.codec, rows) && DistinctKeys(rows) && Grouped(s.codec, rows, groups)
    ensures r.Ok? <==> Accepted(s, t, groups, order, n)
    ensures r.Ok? ==> Registered(t, Entries(s, groups, order, n), n, r.value.0)
    ensures r.Ok? ==> forall g | g in order :: g in Project(s, groups, order, seal)
    ensures r.Ok? ==> Committed(s.codec, rows, order, Project(s, groups, order, seal), r.value.1)
  {
    var prepared := PrepareBatch(s, groups, order, n);
    if prepared.Err? {
      return Err;
    }
    EntriesAreStaged(s, groups, order, n);
    assert forall g | g in order :: g in Keys(order);
    assert ListsRows(s.codec, rows, order, groups) by { GroupsListRows(s.codec, rows, groups, order); }
    assert Projections(order, Project(s, groups, order, seal)) by { GroupsProject(s, rows, groups, order, seal); }
    r := CommitBatch(s.codec, t, rows, groups, order, prepared.value, Project(s, groups, order, seal), n);
    if r.Ok? { FirstIsAll(s.codec, rows, order, Project(s, groups, order, seal), r.value.1); }
  }
}
