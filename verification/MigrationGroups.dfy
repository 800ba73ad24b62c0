/** Grouping: the artifacts of all scanned rows, one group for each tenant, task and id. */
module MigrationGroups {
  import opened InlineArtifacts
  import opened Migration

  datatype Sighting = Sighting(row: Row, artifact: Artifact)

  function Of(s: Sighting): GroupKey { KeyFor(s.row, s.artifact) }

  predicate Clash(s: Sighting, t: Sighting) {
    s.artifact != t.artifact || s.row.origin.owner != t.row.origin.owner || s.row.origin.context != t.row.origin.context
  }

  predicate Counted(groups: map<GroupKey, Group>, s: Sighting) {
    && Of(s) in groups
    && groups[Of(s)].artifact == s.artifact
    && groups[Of(s)].origin.owner == s.row.origin.owner && groups[Of(s)].origin.context == s.row.origin.context
    && s.row.key in groups[Of(s)].rows
  }

  ghost predicate Sourced(seen: set<Sighting>, g: GroupKey, key: SourceKey) {
    exists s :: s in seen && Of(s) == g && s.row.key == key
  }

  ghost predicate Nonempty(groups: map<GroupKey, Group>, g: GroupKey) { g in groups ==> groups[g].rows != {} }

  // The groups are exactly those of the sightings so far, with exactly their rows, and they agree.
  ghost predicate Tally(seen: set<Sighting>, groups: map<GroupKey, Group>) {
    && (forall s | s in seen :: Counted(groups, s))
    && (forall g :: Nonempty(groups, g))
    && (forall g, key | g in groups && key in groups[g].rows :: Sourced(seen, g, key))
  }

  function Count(groups: map<GroupKey, Group>, s: Sighting): Result<map<GroupKey, Group>> {
    if Of(s) in groups then
      var existing := groups[Of(s)];
      if existing.artifact != s.artifact || existing.origin.owner != s.row.origin.owner ||
         existing.origin.context != s.row.origin.context then Err
      else Ok(groups[Of(s) := existing.(rows := existing.rows + {s.row.key})])
    else Ok(groups[Of(s) := Group(s.row.origin, s.artifact, {s.row.key})])
  }

  lemma CountKeepsTally(seen: set<Sighting>, groups: map<GroupKey, Group>, s: Sighting)
    requires Tally(seen, groups) && Count(groups, s).Ok?
    ensures Tally(seen + {s}, Count(groups, s).value)
  {
    var more, next := seen + {s}, Count(groups, s).value;
    forall t | t in more ensures Counted(next, t) { if t != s { assert Counted(groups, t); } }
    forall g ensures Nonempty(next, g) { assert Nonempty(groups, g); }
    forall g, key | g in next && key in next[g].rows ensures Sourced(more, g, key) {
      if g in groups && key in groups[g].rows {
        var t :| t in seen && Of(t) == g && t.row.key == key;
        assert t in more;
      } else {
        assert s in more && Of(s) == g && s.row.key == key;
      }
    }
  }

  lemma CountFailsOnClash(seen: set<Sighting>, groups: map<GroupKey, Group>, s: Sighting)
    requires Tally(seen, groups) && Count(groups, s).Err?
    ensures exists t :: t in seen && Of(t) == Of(s) && Clash(t, s)
  {
    var t := Witness(seen, groups, Of(s));
    assert Counted(groups, t);
  }

  lemma Witness(seen: set<Sighting>, groups: map<GroupKey, Group>, g: GroupKey) returns (s: Sighting)
    requires Tally(seen, groups) && g in groups
    ensures s in seen && Of(s) == g
  {
    assert Nonempty(groups, g);
    var key :| key in groups[g].rows;
    assert Sourced(seen, g, key);
    s :| s in seen && Of(s) == g && s.row.key == key;
  }

  ghost predicate Sighted(c: Codec, rows: seq<Row>, s: Sighting) {
    s.row in rows && Has(c, s.row, Of(s), s.artifact)
  }

  ghost predicate AllSeen(c: Codec, rows: seq<Row>, seen: set<Sighting>) {
    forall s :: s in seen <==> Sighted(c, rows, s)
  }

  ghost predicate Grouped(c: Codec, rows: seq<Row>, groups: map<GroupKey, Group>) {
    exists seen :: AllSeen(c, rows, seen) && Tally(seen, groups)
  }

  lemma TallyMeansAgreement(c: Codec, rows: seq<Row>, seen: set<Sighting>, groups: map<GroupKey, Group>)
    requires AllSeen(c, rows, seen) && Tally(seen, groups)
    ensures Agreeing(c, rows)
  {
    forall i, j, a, b | 0 <= i < |rows| && 0 <= j < |rows| && Has(c, rows[i], KeyFor(rows[i], a), a) &&
                        Has(c, rows[j], KeyFor(rows[i], a), b)
      ensures a == b && rows[i].origin.owner == rows[j].origin.owner && rows[i].origin.context == rows[j].origin.context
    {
      assert Sighted(c, rows, Sighting(rows[i], a)) && Sighted(c, rows, Sighting(rows[j], b));
      assert Counted(groups, Sighting(rows[i], a)) && Counted(groups, Sighting(rows[j], b));
    }
  }

  lemma TallyMeansGroups(c: Codec, rows: seq<Row>, seen: set<Sighting>, groups: map<GroupKey, Group>)
    requires AllSeen(c, rows, seen) && Tally(seen, groups)
    ensures groups.Keys == InlineGroups(c, rows)
  {
    forall g ensures g in groups <==> g in InlineGroups(c, rows) {
      InlineGroupsAre(c, rows, g);
      if g in groups {
        var s := Witness(seen, groups, g);
        assert Sighted(c, rows, s);
        var i :| 0 <= i < |rows| && rows[i] == s.row;
        assert Has(c, rows[i], g, s.artifact);
        assert Inline(c, rows, g, s.artifact);
      }
      if g in InlineGroups(c, rows) {
        var a :| Inline(c, rows, g, a);
        var i :| 0 <= i < |rows| && Has(c, rows[i], g, a);
        assert Sighted(c, rows, Sighting(rows[i], a)) && Counted(groups, Sighting(rows[i], a));
      }
    }
  }

  // Groups keep their origin; new ones have this row's.
  predicate Later(groups: map<GroupKey, Group>, more: map<GroupKey, Group>, row: Row) {
    && (forall g | g in groups :: g in more && more[g].origin == groups[g].origin)
    && (forall g | g in more && g !in groups :: more[g].origin == row.origin)
  }

  // Row `i` is the first with an artifact of the group.
  ghost predicate Leads(c: Codec, rows: seq<Row>, i: int, g: GroupKey) {
    0 <= i < |rows| && (exists a :: Has(c, rows[i], g, a)) && forall j, a | 0 <= j < i :: !Has(c, rows[j], g, a)
  }

  ghost predicate Led(c: Codec, rows: seq<Row>, groups: map<GroupKey, Group>, g: GroupKey)
    requires g in groups
  {
    exists i :: Leads(c, rows, i, g) && groups[g].origin == rows[i].origin
  }

  lemma StillLed(c: Codec, rows: seq<Row>, n: nat, groups: map<GroupKey, Group>, more: map<GroupKey, Group>,
                 g: GroupKey)
    requires n < |rows| && g in groups && Led(c, rows[..n], groups, g) && g in more &&
             more[g].origin == groups[g].origin
    ensures Led(c, rows[..n + 1], more, g)
  {
    var i :| Leads(c, rows[..n], i, g) && groups[g].origin == rows[..n][i].origin;
    assert rows[..n + 1][i] == rows[..n][i] && forall j | 0 <= j < i :: rows[..n + 1][j] == rows[..n][j];
    assert Leads(c, rows[..n + 1], i, g);
  }

  lemma HeldIsGrouped(c: Codec, rows: seq<Row>, seen: set<Sighting>, groups: map<GroupKey, Group>, j: nat,
                      g: GroupKey, a: Artifact)
    requires AllSeen(c, rows, seen) && Tally(seen, groups) && j < |rows|
    ensures Has(c, rows[j], g, a) ==> g in groups
  {
    if Has(c, rows[j], g, a) {
      assert Sighted(c, rows, Sighting(rows[j], a)) && Counted(groups, Sighting(rows[j], a));
    }
  }

  lemma NewlyLed(c: Codec, rows: seq<Row>, n: nat, groups: map<GroupKey, Group>, seen: set<Sighting>,
                 more: map<GroupKey, Group>, now: set<Sighting>, g: GroupKey)
    requires n < |rows| && AllSeen(c, rows[..n], seen) && Tally(seen, groups) && AllSeen(c, rows[..n + 1], now) &&
             Tally(now, more)
    requires g in more && g !in groups && more[g].origin == rows[n].origin
    ensures Led(c, rows[..n + 1], more, g)
  {
    forall j, a | 0 <= j < n ensures !Has(c, rows[j], g, a) {
      assert rows[..n][j] == rows[j];
      HeldIsGrouped(c, rows[..n], seen, groups, j, g, a);
    }
    var s := Witness(now, more, g);
    assert Sighted(c, rows[..n + 1], s);
    var i :| 0 <= i < n + 1 && rows[..n + 1][i] == s.row;
    assert Has(c, rows[i], g, s.artifact) && i == n;
    assert rows[..n + 1][n] == rows[n];
    assert Leads(c, rows[..n + 1], n, g);
  }

  // The artifacts of one row, added one after the other.
  method CountRow(row: Row, found: seq<Artifact>, groups: map<GroupKey, Group>, ghost seen: set<Sighting>)
    returns (r: Result<map<GroupKey, Group>>, ghost more: set<Sighting>)
    requires Tally(seen, groups)
    ensures r.Ok? ==> Tally(more, r.value)
    ensures r.Ok? ==> forall s :: s in more <==> s in seen || (s.row == row && s.artifact in found)
    ensures r.Ok? ==> Later(groups, r.value, row)
    ensures r.Err? ==> exists s: Sighting, t: Sighting ::
              s.row == row && s.artifact in found && Of(t) == Of(s) && Clash(t, s) &&
                                      (t in seen || (t.row == row && t.artifact in found))
  {
    var acc := groups;
    more := seen;
    var j := 0;
    while j < |found|
      invariant 0 <= j <= |found|
      invariant Tally(more, acc)
      invariant forall s :: s in more <==> s in seen || (s.row == row && s.artifact in found[..j])
      invariant Later(groups, acc, row)
    {
      var s := Sighting(row, found[j]);
      var next := Count(acc, s);
      if next.Err? {
        CountFailsOnClash(more, acc, s);
        return Err, more;
      }
      CountKeepsTally(more, acc, s);
      acc := next.value;
      more := more + {s};
      assert found[..j + 1] == found[..j] + [found[j]];
      j := j + 1;
    }
    assert found[..j] == found;
    return Ok(acc), more;
  }

  /** Grouping succeeds exactly when every row can be read and the artifacts of each group agree, and then
      has one group for each distinct inline artifact of a task, listing the rows that hold it. */
  method GroupArtifacts(c: Codec, rows: seq<Row>) returns (r: Result<map<GroupKey, Group>>)
    ensures r.Ok? <==> Readable(c, rows) && Agreeing(c, rows)
    ensures r.Ok? ==> Grouped(c, rows, r.value) && r.value.Keys == InlineGroups(c, rows)
    ensures r.Ok? ==> forall g | g in r.value :: Led(c, rows, r.value, g)
  {
    var groups: map<GroupKey, Group> := map[];
    ghost var seen: set<Sighting> := {};
    var i := 0;
    while i < |rows|
      invariant 0 <= i <= |rows|
      invariant Readable(c, rows[..i]) && Tally(seen, groups)
      invariant AllSeen(c, rows[..i], seen)
      invariant forall g | g in groups :: Led(c, rows[..i], groups, g)
    {
      var found := Extract(c, rows[i].value);
      if found.Err? {
        assert !Readable(c, rows);
        return Err;
      }
      var next, more := CountRow(rows[i], found.value, groups, seen);
      if next.Err? {
        ghost var s: Sighting, t: Sighting :|
                          s.row == rows[i] && s.artifact in found.value && Of(t) == Of(s) && Clash(t, s) &&
                          (t in seen || (t.row == rows[i] && t.artifact in found.value));
        assert t in seen ==> Sighted(c, rows[..i], t);
        ghost var a: nat :| a < |rows| && rows[a] == t.row;
        assert Has(c, rows[a], KeyFor(rows[a], t.artifact), t.artifact) &&
               Has(c, rows[i], KeyFor(rows[a], t.artifact), s.artifact);
        assert !Agreeing(c, rows);
        return Err;
      }
      assert rows[..i + 1] == rows[..i] + [rows[i]];
      forall s ensures s in more <==> Sighted(c, rows[..i + 1], s) {}
      forall g | g in next.value ensures Led(c, rows[..i + 1], next.value, g) {
        if g in groups { StillLed(c, rows, i, groups, next.value, g); }
        else { NewlyLed(c, rows, i, groups, seen, next.value, more, g); }
      }
      groups, seen := next.value, more;
      i := i + 1;
    }
    assert rows[..i] == rows;
    TallyMeansAgreement(c, rows, seen, groups);
    TallyMeansGroups(c, rows, seen, groups);
    return Ok(groups);
  }
}
