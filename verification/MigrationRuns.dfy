/** The migration loop: pass after pass until nothing inline is left. */
module MigrationRuns {
  import opened Options
  import opened InlineArtifacts
  import opened InlineRewrites
  import opened InlineReplacement
  import opened InlineRecords
  import opened Registration
  import opened Migration
  import opened MigrationGroups
  import opened MigrationExecutor
  import opened MigrationState

  // ----- The loop -----

  lemma CleanParts(c: Codec, xs: seq<Json>, ys: seq<Json>)
    ensures Clean(c, xs + ys) <==> Clean(c, xs) && Clean(c, ys)
  {
    if Clean(c, xs + ys) {
      forall i | 0 <= i < |xs| ensures Extract(c, xs[i]) == Ok([]) { assert (xs + ys)[i] == xs[i]; }
      forall i | 0 <= i < |ys| ensures Extract(c, ys[i]) == Ok([]) { assert (xs + ys)[|xs| + i] == ys[i]; }
    }
  }

  lemma EmptyMeansClean(c: Codec, rows: seq<Row>)
    requires Readable(c, rows) && InlineGroups(c, rows) == {}
    ensures Clean(c, Values(rows))
  {
    forall i | 0 <= i < |rows| ensures Extract(c, rows[i].value) == Ok([]) {
      var list := Extract(c, rows[i].value).value;
      if list != [] {
        assert Has(c, rows[i], KeyFor(rows[i], list[0]), list[0]);
        assert Inline(c, rows, KeyFor(rows[i], list[0]), list[0]);
        InlineGroupsAre(c, rows, KeyFor(rows[i], list[0]));
      }
    }
  }

  function Left(n: nat, batch: nat): nat { if n < batch then 0 else n - batch }

  // How many batches it takes to get through `n`.
  function Batches(n: nat, batch: nat): nat
    requires batch > 0
  {
    if n == 0 then 0 else 1 + Batches(Left(n, batch), batch)
  }

  /** That number is the quotient, rounded up. */
  lemma {:induction false} BatchesRoundUp(n: nat, batch: nat)
    requires batch > 0
    ensures n <= Batches(n, batch) * batch && (n > 0 ==> (Batches(n, batch) - 1) * batch < n)
  {
    if n > 0 {
      var left := Left(n, batch);
      BatchesRoundUp(left, batch);
      assert Batches(n, batch) * batch == Batches(left, batch) * batch + batch;
    }
  }

  lemma PassIsSound(s: Store, start: seq<Row>, before: Tables, rows: seq<Row>, moved: set<GroupKey>, t: Tables, n: nat,
                    groups: map<GroupKey, Group>, order: seq<GroupKey>, seal: GroupKey -> Seals, u: Tables,
                    out: seq<Row>)
    requires Sound(s, start, before, rows, moved, t, n) && Chosen(s.codec, rows, groups, order) &&
             Accepted(s, t, groups, order, n)
    requires Registered(t, Entries(s, groups, order, n), n, u)
    requires forall g | g in order :: g in Project(s, groups, order, seal)
    requires Committed(s.codec, rows, order, Project(s, groups, order, seal), out)
    ensures Sound(s, start, before, out, moved + Keys(order), u, n + |order|)
    ensures InlineGroups(s.codec, out) == InlineGroups(s.codec, rows) - Keys(order)
  {
    BatchIsSound(s, start, before, rows, moved, t, n, groups, order, seal, u, out);
    KeptGroups(s.codec, start, rows, moved);
    KeptGroups(s.codec, start, out, moved + Keys(order));
  }

  // ----- The loop, for any invariant that a batch keeps -----

  // `shown` has the moved groups and what they were replaced by.
  datatype Pass = Pass(rows: seq<Row>, shown: map<GroupKey, Json>, tables: Tables, next: nat)

  type Invariant = Pass -> bool

  ghost predicate Usable(s: Store, x: Pass) {
    && Workable(s.codec, x.rows) && DistinctKeys(x.rows) && Agreeing(s.codec, x.rows)
    && Referential(x.tables) && Below(x.tables, x.next)
  }

  ghost predicate Batched(s: Store, x: Pass, groups: map<GroupKey, Group>, order: seq<GroupKey>,
                          seal: GroupKey -> Seals, y: Pass) {
    && Chosen(s.codec, x.rows, groups, order) && Accepted(s, x.tables, groups, order, x.next)
    && Registered(x.tables, Entries(s, groups, order, x.next), x.next, y.tables)
    && (forall g | g in order :: g in Project(s, groups, order, seal))
    && Committed(s.codec, x.rows, order, Project(s, groups, order, seal), y.rows)
    && y.shown == x.shown + Project(s, groups, order, seal) && y.next == x.next + |order|
  }

  ghost predicate Steps(s: Store, inv: Invariant, x: Pass, order: seq<GroupKey>, y: Pass) {
    inv(y) && InlineGroups(s.codec, y.rows) == InlineGroups(s.codec, x.rows) - Keys(order)
  }

  ghost predicate Carries(s: Store, seal: GroupKey -> Seals, inv: Invariant, ready: bool) {
    && (forall x | inv(x) :: Usable(s, x))
    && (forall x, groups, order | inv(x) && ready && Chosen(s.codec, x.rows, groups, order) ::
          Accepted(s, x.tables, groups, order, x.next))
    && (forall x, groups, order, y | inv(x) && Batched(s, x, groups, order, seal, y) :: Steps(s, inv, x, order, y))
  }

  method TryBatch(s: Store, x: Pass, groups: map<GroupKey, Group>, order: seq<GroupKey>, seal: GroupKey -> Seals)
    returns (ok: bool, y: Pass)
    requires Usable(s, x) && Chosen(s.codec, x.rows, groups, order)
    ensures ok <==> Accepted(s, x.tables, groups, order, x.next)
    ensures if ok then Batched(s, x, groups, order, seal, y) else y == x
  {
    var done := RunBatch(s, x.tables, x.rows, groups, order, seal, x.next);
    if done.Err? {
      return false, x;
    }
    return true, Pass(done.value.1, x.shown + Project(s, groups, order, seal), done.value.0, x.next + |order|);
  }

  lemma MayBeTried(s: Store, x: Pass, groups: map<GroupKey, Group>, order: seq<GroupKey>, seal: GroupKey -> Seals,
                   inv: Invariant, ready: bool)
    requires Carries(s, seal, inv, ready) && inv(x) && Grouped(s.codec, x.rows, groups)
    requires (forall g | g in groups :: Led(s.codec, x.rows, groups, g)) && Distinct(order) &&
             Keys(order) <= groups.Keys
    ensures Usable(s, x) && Chosen(s.codec, x.rows, groups, order)
  {
    forall g | g in order ensures g in groups { assert g in Keys(order); }
  }

  lemma CarriesOn(s: Store, x: Pass, groups: map<GroupKey, Group>, order: seq<GroupKey>, seal: GroupKey -> Seals,
                  inv: Invariant, ready: bool, ok: bool, y: Pass)
    requires Carries(s, seal, inv, ready) && inv(x) && Chosen(s.codec, x.rows, groups, order)
    requires ok <==> Accepted(s, x.tables, groups, order, x.next)
    requires if ok then Batched(s, x, groups, order, seal, y) else y == x
    ensures inv(y) && (ready ==> ok)
    ensures ok ==> InlineGroups(s.codec, y.rows) == InlineGroups(s.codec, x.rows) - Keys(order)
  {
    if ok { assert Steps(s, inv, x, order, y); }
  }

  lemma FewerLeft(groups: set<GroupKey>, order: set<GroupKey>, batch: nat)
    requires order <= groups && |order| == if |groups| < batch then |groups| else batch
    ensures |groups - order| == Left(|groups|, batch)
  {
    assert groups == (groups - order) + order;
  }

  // One pass over rows that have something inline.
  method Advance(s: Store, x: Pass, groups: map<GroupKey, Group>, batch: nat, seal: GroupKey -> Seals,
                 ghost inv: Invariant, ghost ready: bool)
    returns (ok: bool, y: Pass)
    requires Carries(s, seal, inv, ready) && inv(x)
    requires Grouped(s.codec, x.rows, groups) && groups.Keys == InlineGroups(s.codec, x.rows)
    requires forall g | g in groups :: Led(s.codec, x.rows, groups, g)
    ensures inv(y) && (!ok ==> y == x) && (ready ==> ok)
    ensures ok ==> |InlineGroups(s.codec, y.rows)| == Left(|InlineGroups(s.codec, x.rows)|, batch)
  {
    var order := SelectBatch(groups.Keys, batch);
    FewerLeft(groups.Keys, Keys(order), batch);
    MayBeTried(s, x, groups, order, seal, inv, ready);
    ok, y := TryBatch(s, x, groups, order, seal);
    CarriesOn(s, x, groups, order, seal, inv, ready, ok, y);
  }

  method Loop(s: Store, first: Pass, strays: seq<Json>, batch: nat, seal: GroupKey -> Seals, trouble: nat -> bool,
              ghost inv: Invariant, ghost ready: bool)
    returns (completed: bool, x: Pass, passes: nat)
    requires Carries(s, seal, inv, ready) &&
             (Readable(s.codec, first.rows) && Agreeing(s.codec, first.rows) ==> inv(first))
    ensures if Readable(s.codec, first.rows) && Agreeing(s.codec, first.rows) then inv(x) else !completed && x == first
    ensures completed ==>
              InlineGroups(s.codec, x.rows) == {} && Clean(s.codec, Values(x.rows)) && Clean(s.codec, strays)
    ensures batch > 0 && (forall p :: !trouble(p)) && inv(first) && ready && Clean(s.codec, strays) ==> completed
    ensures batch > 0 ==> passes <= Batches(|InlineGroups(s.codec, first.rows)|, batch) + 1
  {
    x, passes := first, 0;
    ghost var left := |InlineGroups(s.codec, first.rows)|;
    while true
      invariant passes == 0 ==> x == first
      invariant passes > 0 ==> inv(x) && Readable(s.codec, first.rows) && Agreeing(s.codec, first.rows)
      invariant left == |InlineGroups(s.codec, x.rows)|
      invariant batch > 0 ==> passes + Batches(left, batch) == Batches(|InlineGroups(s.codec, first.rows)|, batch)
      decreases left
    {
      assert inv(x) ==> Usable(s, x);
      var grouped := GroupArtifacts(s.codec, x.rows);
      if grouped.Err? {
        return false, x, passes + 1;
      }
      var groups := grouped.value;
      if groups == map[] {
        EmptyMeansClean(s.codec, x.rows);
        CleanParts(s.codec, Values(x.rows), strays);
        var clean := Rescan(s.codec, Values(x.rows) + strays);
        return clean && !trouble(passes), x, passes + 1;
      }
      if batch == 0 || trouble(passes) {
        return false, x, passes + 1;
      }
      var ok, y := Advance(s, x, groups, batch, seal, inv, ready);
      if !ok {
        return false, x, passes + 1;
      }
      x, left, passes := y, |InlineGroups(s.codec, y.rows)|, passes + 1;
    }
  }

  // ----- The migration -----

  ghost predicate SoundPass(s: Store, seal: GroupKey -> Seals, start: seq<Row>, before: Tables, x: Pass) {
    Sound(s, start, before, x.rows, x.shown.Keys, x.tables, x.next) && Written(s, seal, start, x.rows, x.shown)
  }

  lemma ProjectKeys(s: Store, groups: map<GroupKey, Group>, order: seq<GroupKey>, seal: GroupKey -> Seals)
    requires forall g | g in order :: g in groups && RecordOf(s, groups[g].artifact).Some?
    ensures Project(s, groups, order, seal).Keys == Keys(order)
  {
  }

  lemma StepIsSound(s: Store, seal: GroupKey -> Seals, start: seq<Row>, before: Tables, x: Pass,
                    groups: map<GroupKey, Group>, order: seq<GroupKey>, y: Pass)
    requires Sound(s, start, before, x.rows, x.shown.Keys, x.tables, x.next) && Batched(s, x, groups, order, seal, y)
    requires Project(s, groups, order, seal).Keys == Keys(order)
    ensures Sound(s, start, before, y.rows, y.shown.Keys, y.tables, y.next)
    ensures InlineGroups(s.codec, y.rows) == InlineGroups(s.codec, x.rows) - Keys(order)
  {
    PassIsSound(s, start, before, x.rows, x.shown.Keys, x.tables, x.next, groups, order, seal, y.tables, y.rows);
    assert y.shown.Keys == x.shown.Keys + Keys(order);
  }

  lemma StepIsWritten(s: Store, seal: GroupKey -> Seals, start: seq<Row>, before: Tables, x: Pass,
                      groups: map<GroupKey, Group>, order: seq<GroupKey>, y: Pass)
    requires Usable(s, x) && RowsKept(s.codec, start, x.rows, x.shown.Keys) && Written(s, seal, start, x.rows, x.shown)
    requires Batched(s, x, groups, order, seal, y)
    ensures Written(s, seal, start, y.rows, y.shown)
  {
    BatchIsWritten(s, seal, start, x.rows, x.shown, groups, order, y.rows);
  }

  lemma SoundSteps(s: Store, seal: GroupKey -> Seals, start: seq<Row>, before: Tables, x: Pass,
                   groups: map<GroupKey, Group>, order: seq<GroupKey>, y: Pass)
    requires SoundPass(s, seal, start, before, x) && Batched(s, x, groups, order, seal, y)
    ensures SoundPass(s, seal, start, before, y)
    ensures InlineGroups(s.codec, y.rows) == InlineGroups(s.codec, x.rows) - Keys(order)
  {
    ProjectKeys(s, groups, order, seal);
    StepIsSound(s, seal, start, before, x, groups, order, y);
    StepIsWritten(s, seal, start, before, x, groups, order, y);
  }

  lemma SoundCarries(s: Store, seal: GroupKey -> Seals, start: seq<Row>, before: Tables, inv: Invariant, ready: bool)
    requires forall x :: inv(x) == SoundPass(s, seal, start, before, x)
    requires ready == Movable(s, before, start, InlineGroups(s.codec, start))
    ensures Carries(s, seal, inv, ready)
  {
    forall x | inv(x) ensures Usable(s, x) { assert SoundPass(s, seal, start, before, x); }
    forall x, groups, order | inv(x) && ready && Chosen(s.codec, x.rows, groups, order)
      ensures Accepted(s, x.tables, groups, order, x.next)
    {
      assert SoundPass(s, seal, start, before, x);
      MovableIsAccepted(s, start, before, x.rows, x.shown.Keys, x.tables, x.next, groups, order);
    }
    forall x, groups, order, y | inv(x) && Batched(s, x, groups, order, seal, y) ensures Steps(s, inv, x, order, y) {
      assert SoundPass(s, seal, start, before, x);
      SoundSteps(s, seal, start, before, x, groups, order, y);
      assert SoundPass(s, seal, start, before, y);
    }
  }

  lemma WrittenAtStart(s: Store, seal: GroupKey -> Seals, start: seq<Row>)
    ensures Written(s, seal, start, start, map[])
  {
    forall i | 0 <= i < |start| ensures RowWritten(s.codec, start[i], start[i], map[]) {
      assert RowShown(s.codec, start[i], map[]) == map[];
      ReplaceNone(start[i].value, map[]);
    }
    forall g, a ensures ShownRight(s, seal, start, map[], g, a) {}
  }

  lemma SoundAtStart(s: Store, seal: GroupKey -> Seals, start: seq<Row>, before: Tables, n: nat)
    requires AllFlat(start) && DistinctKeys(start) && Referential(before) && Below(before, n)
    ensures Conserved(s, seal, start, before, Pass(start, map[], before, n))
    ensures Readable(s.codec, start) && Agreeing(s.codec, start) ==>
              SoundPass(s, seal, start, before, Pass(start, map[], before, n))
  {
    WrittenAtStart(s, seal, start);
    var none: map<GroupKey, Json> := map[];
    assert none.Keys == {};
    forall i, g, a | 0 <= i < |start| ensures RowKept(s.codec, start[i], start[i], {}, g, a) {}
    assert SlotsOf({}) == {};
    forall e ensures Open(before, {}, before, e) {}
    forall i, g, a ensures Moved(s, start, {}, before, i, g, a) {}
    forall i, g, a ensures FitAt(s, before, start, {}, i, g, a) {}
  }

  lemma AllMoved(s: Store, seal: GroupKey -> Seals, start: seq<Row>, before: Tables, x: Pass)
    requires SoundPass(s, seal, start, before, x) && InlineGroups(s.codec, x.rows) == {}
    ensures x.shown.Keys == InlineGroups(s.codec, start) && Movable(s, before, start, InlineGroups(s.codec, start))
  {
    KeptGroups(s.codec, start, x.rows, x.shown.Keys);
    forall g | g in InlineGroups(s.codec, start) ensures g in x.shown.Keys {
      assert g !in x.shown.Keys ==> g in InlineGroups(s.codec, x.rows);
    }
    assert x.shown.Keys == InlineGroups(s.codec, start);
  }

  // Nothing is lost, changed or invented: each document is the one of the start with exactly the objects of
  // its moved artifacts replaced by their presentations, rows keep all artifacts but the moved ones, and those
  // are registered with the records of their artifacts and nothing else is.
  ghost predicate Conserved(s: Store, seal: GroupKey -> Seals, start: seq<Row>, before: Tables, x: Pass) {
    && Written(s, seal, start, x.rows, x.shown)
    && RowsKept(s.codec, start, x.rows, x.shown.Keys) && x.shown.Keys <= InlineGroups(s.codec, start)
    && Recorded(s, start, before, x.shown.Keys, x.tables)
  }

  /** The whole migration. `before` is what is registered already; `strays` are durable documents outside the
      scan, which only the last rescan reads; `trouble` says in which pass the store or the authority fails.

      Every run, completed or not, conserves the documents and the artifacts. A completed run has found every
      durable document free of inline artifacts and has moved every group. With a positive batch size and no
      trouble it completes, within one more pass than there are batches, exactly when the rows can be grouped,
      every group can be given a manifest, none is registered already, no two share tenant and id, and no
      stray is in the way. */
  method Migrate(s: Store, before: Tables, next: nat, start: seq<Row>, strays: seq<Json>, batch: nat,
                 seal: GroupKey -> Seals, trouble: nat -> bool)
    returns (completed: bool, x: Pass, passes: nat)
    requires AllFlat(start) && DistinctKeys(start) && Referential(before) && Below(before, next)
    ensures Conserved(s, seal, start, before, x)
    ensures completed ==>
              Clean(s.codec, Values(x.rows)) && Clean(s.codec, strays) && x.shown.Keys == InlineGroups(s.codec, start)
    ensures completed ==> Readable(s.codec, start) && Agreeing(s.codec, start)
    ensures completed ==> Movable(s, before, start, InlineGroups(s.codec, start))
    ensures batch > 0 && (forall p :: !trouble(p)) ==>
              (completed <==> Readable(s.codec, start) && Agreeing(s.codec, start) && Clean(s.codec, strays) &&
                              Movable(s, before, start, InlineGroups(s.codec, start)))
    ensures !(Readable(s.codec, start) && Agreeing(s.codec, start)) ==> x == Pass(start, map[], before, next)
    ensures batch > 0 ==> passes <= Batches(|InlineGroups(s.codec, start)|, batch) + 1
  {
    ghost var inv := (x: Pass) => SoundPass(s, seal, start, before, x);
    ghost var ready := Movable(s, before, start, InlineGroups(s.codec, start));
    SoundAtStart(s, seal, start, before, next);
    SoundCarries(s, seal, start, before, inv, ready);
    completed, x, passes := Loop(s, Pass(start, map[], before, next), strays, batch, seal, trouble, inv, ready);
    if completed { AllMoved(s, seal, start, before, x); }
  }

  // ----- Two tasks with one artifact id -----

  lemma DataRow(c: Codec, row: Row, id: string, g: GroupKey, a: Artifact)
    requires ValidId(id) && row.value == DataArtifact(id, Null)
    ensures var only := Artifact(id, None, None, [Part(Data, c.canonical(Null), None, None)], []);
            && Extract(c, row.value) == Ok([only])
            && (Has(c, row, g, a) <==> a == only && g == GroupKey(row.tenant, row.task, id))
  {
    ReadDataArtifact(c, id, Null);
  }

  lemma DataIsFlat(id: string)
    ensures Flat(DataArtifact(id, Null))
  {
    var part := Field(KData, Null, NoFields);
    OneField(KData, Null, KArtifactId);
    assert Bare(Obj(part));
    var items := Item(Obj(part), NoItems);
    assert BareItems(items);
    assert BareFields(Field(KParts, Arr(items), NoFields));
    PlainArtifact(id, items);
  }

  lemma TwoTasksAgree(c: Codec, one: Row, two: Row, id: string)
    requires ValidId(id) && one.task != two.task && one.key != two.key
    requires one.value == DataArtifact(id, Null) && two.value == DataArtifact(id, Null)
    ensures Readable(c, [one, two]) && Agreeing(c, [one, two]) && AllFlat([one, two]) && DistinctKeys([one, two])
  {
    var rows := [one, two];
    DataIsFlat(id);
    ReadDataArtifact(c, id, Null);
    forall i, g, a | 0 <= i < 2
      ensures Has(c, rows[i], g, a) ==> g == GroupKey(rows[i].tenant, rows[i].task, id)
      ensures forall b | Has(c, rows[i], g, a) && Has(c, rows[i], g, b) :: a == b
    {
      DataRow(c, rows[i], id, g, a);
      forall b | Has(c, rows[i], g, a) && Has(c, rows[i], g, b) ensures a == b { DataRow(c, rows[i], id, g, b); }
    }
  }

  lemma InlineAt(c: Codec, rows: seq<Row>, i: nat, g: GroupKey, a: Artifact)
    requires i < |rows| && Has(c, rows[i], g, a)
    ensures g in InlineGroups(c, rows)
  {
    assert Inline(c, rows, g, a);
    InlineGroupsAre(c, rows, g);
  }

  /** Two tasks of one tenant that each have an artifact of the same id, and the very same one: the rows can
      be read, agree, are flat and have keys of their own, and yet no migration of them completes. */
  lemma TwoTasksClash(s: Store, before: Tables, one: Row, two: Row, id: string)
    requires ValidId(id) && one.tenant == two.tenant && one.task != two.task && one.key != two.key
    requires one.value == DataArtifact(id, Null) && two.value == DataArtifact(id, Null)
    ensures Readable(s.codec, [one, two]) && Agreeing(s.codec, [one, two]) && AllFlat([one, two]) &&
            DistinctKeys([one, two])
    ensures !Movable(s, before, [one, two], InlineGroups(s.codec, [one, two]))
  {
    TwoTasksAgree(s.codec, one, two, id);
    var rows := [one, two];
    var only := Artifact(id, None, None, [Part(Data, s.codec.canonical(Null), None, None)], []);
    var g, h := GroupKey(one.tenant, one.task, id), GroupKey(two.tenant, two.task, id);
    DataRow(s.codec, one, id, g, only);
    DataRow(s.codec, two, id, h, only);
    InlineAt(s.codec, rows, 0, g, only);
    InlineAt(s.codec, rows, 1, h, only);
    assert SlotOf(g) == SlotOf(h) && g != h;
  }
}
