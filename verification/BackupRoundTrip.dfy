/** What restoring a backup gives back. */
module BackupRoundTrip {
  import opened Options
  import opened Backup
  import opened BackupAcceptance
  import opened Restore

  ghost predicate Grows(a: Rows, b: Rows) { forall k | k in a :: k in b && b[k] == a[k] }

  ghost predicate AllGrow(s: Shared, t: Shared) {
    Grows(s.tasks, t.tasks) && Grows(s.events, t.events) && Grows(s.quotas, t.quotas) &&
    Grows(s.generations, t.generations)
  }

  predicate Keyed1(write: Writer, fields: seq<Field>, rows: Rows, k: Key) {
    k in rows ==> RowKey(write, rows[k], fields) == Some(k)
  }

  ghost predicate WellKeyed(write: Writer, fields: seq<Field>,
                            rows: Rows) { forall k :: Keyed1(write, fields, rows, k) }

  lemma ShareFiles(write: Writer, rows: Rows, v: Value, fields: seq<Field>)
    requires Share(write, rows, v, fields).Some?
    ensures var (next, k) := Share(write, rows, v, fields).value;
            && Grows(rows, next) && k in next && next[k] == v && next.Keys == rows.Keys + {k}
            && (WellKeyed(write, fields, rows) ==> WellKeyed(write, fields, next))
  {
    var (next, k) := Share(write, rows, v, fields).value;
    if WellKeyed(write, fields, rows) {
      forall i ensures Keyed1(write, fields, next, i) { assert Keyed1(write, fields, rows, i); }
    }
  }

  ghost predicate EventsFiled(rows: Rows, keys: seq<Key>, events: seq<Value>) {
    |keys| == |events| && forall i | 0 <= i < |keys| :: keys[i] in rows && rows[keys[i]] == events[i]
  }

  lemma FiledEvent(rows: Rows, keys: seq<Key>, events: seq<Value>, next: Rows, k: Key, v: Value)
    requires EventsFiled(rows, keys, events) && Grows(rows, next) && k in next && next[k] == v &&
             next.Keys == rows.Keys + {k}
    ensures EventsFiled(next, keys + [k], events + [v])
    ensures forall j | j in next :: j in rows || j in keys + [k]
  {
    assert (keys + [k])[|keys|] == k;
  }

  lemma {:induction false} ShareEventsFiles(write: Writer, rows: Rows, events: seq<Value>)
    requires ShareEvents(write, rows, events).Some?
    ensures var (next, keys) := ShareEvents(write, rows, events).value;
            && Grows(rows, next) && EventsFiled(next, keys, events)
            && (forall k | k in next :: k in rows || k in keys)
            && (WellKeyed(write, EVENT_FIELDS, rows) ==> WellKeyed(write, EVENT_FIELDS, next))
  {
    if events != [] {
      var n := |events| - 1;
      ShareEventsFiles(write, rows, events[..n]);
      var front := ShareEvents(write, rows, events[..n]).value;
      ShareFiles(write, front.0, events[n], EVENT_FIELDS);
      var last := Share(write, front.0, events[n], EVENT_FIELDS).value;
      FiledEvent(front.0, front.1, events[..n], last.0, last.1, events[n]);
      assert events == events[..n] + [events[n]];
    }
  }

  // ----- One entry -----

  // The rows are taken out of the entry.
  predicate Emptied(n: Entry) {
    forall f | f in {Task, TaskEvents, KeyGenerationMetadata, QuotaPolicy} :: f in n && n[f].Null?
  }

  // `n` is `e` with its rows replaced by keys under which `s` has them.
  ghost predicate Files(s: Shared, e: Value, n: Entry, events: seq<Key>) {
    && Complete(e) && Emptied(n)
    && TextAt(n, TaskKey).Some? && Holds(s.tasks, TextAt(n, TaskKey).value, e.fields[Task])
    && TaskEventKeys in n && n[TaskEventKeys] == List(Keys(events))
    && EventsFiled(s.events, events, e.fields[TaskEvents].items)
    && TextAt(n, KeyGenerationKey).Some?
    && Holds(s.generations, TextAt(n, KeyGenerationKey).value, e.fields[KeyGenerationMetadata])
    && (if e.fields[QuotaPolicy].Null? then TextAt(n, QuotaPolicyKey) == TextAt(e.fields, QuotaPolicyKey)
        else TextAt(n, QuotaPolicyKey).Some? && Holds(s.quotas, TextAt(n, QuotaPolicyKey).value, e.fields[QuotaPolicy]))
    && forall f :: Elsewhere(f) ==> SameField(e.fields, n, f)
  }

  predicate Holds(rows: Rows, k: Key, v: Value) { k in rows && rows[k] == v }

  predicate SameField(a: Entry, b: Entry, f: Field) { (f in b <==> f in a) && (f in a ==> b[f] == a[f]) }

  predicate KeyField(f: Field) { f.TaskKey? || f.TaskEventKeys? || f.KeyGenerationKey? || f.QuotaPolicyKey? }

  predicate Elsewhere(f: Field) {
    !KeyField(f) && !f.Task? && !f.TaskEvents? && !f.KeyGenerationMetadata? && !f.QuotaPolicy?
  }

  lemma NormalizeFiles(write: Writer, s: Shared, e: Value) returns (events: seq<Key>)
    requires Normalize(write, s, e).Some?
    ensures var (t, n) := Normalize(write, s, e).value;
            && AllGrow(s, t) && Files(t, e, n, events)
  {
    ShareFiles(write, s.tasks, e.fields[Task], TASK_FIELDS);
    ShareEventsFiles(write, s.events, e.fields[TaskEvents].items);
    events := ShareEvents(write, s.events, e.fields[TaskEvents].items).value.1;
    ShareFiles(write, s.generations, e.fields[KeyGenerationMetadata], GENERATION_FIELDS);
    if !e.fields[QuotaPolicy].Null? { ShareFiles(write, s.quotas, e.fields[QuotaPolicy], QUOTA_FIELDS); }
    ReplacedFields(e.fields, Share(write, s.tasks, e.fields[Task], TASK_FIELDS).value.1, events,
                   Share(write, s.generations, e.fields[KeyGenerationMetadata], GENERATION_FIELDS).value.1,
                   ShareQuota(write, s.quotas, e.fields[QuotaPolicy]).value.1);
  }

  lemma ReplacedFields(e: Entry, task: Key, events: seq<Key>, generation: Key, quota: Option<Key>)
    ensures var n := Replaced(e, task, events, generation, quota);
            && TextAt(n, TaskKey) == Some(task) && TextAt(n, KeyGenerationKey) == Some(generation)
            && TaskEventKeys in n && n[TaskEventKeys] == List(Keys(events))
            && TextAt(n, QuotaPolicyKey) == (if quota.Some? then quota else TextAt(e, QuotaPolicyKey))
            && Emptied(n) && forall f :: Elsewhere(f) ==> SameField(e, n, f)
  {
  }

  // A null quota policy beside a string under `quotaPolicyKey`, which restoring takes for a reference.
  predicate Stray(e: Value)
    requires Complete(e)
  {
    e.fields[QuotaPolicy].Null? && TextAt(e.fields, QuotaPolicyKey).Some?
  }

  // Everything but the four key fields is as it was.
  ghost predicate Restored(e: Value, x: Entry)
    requires e.Object?
  {
    forall f :: !KeyField(f) ==> SameField(e.fields, x, f)
  }

  lemma FilesRestore(s: Shared, e: Value, n: Entry, events: seq<Key>)
    requires Files(s, e, n, events) && !Stray(e)
    ensures Resolves(s, n) && Restored(e, Expanded(s, n))
  {
    var items := n[TaskEventKeys].items;
    assert |items| == |events| && forall i | 0 <= i < |items| :: items[i] == Text(events[i]);
    assert EventsOf(s.events, items) == e.fields[TaskEvents].items;
    var x := Expanded(s, n);
    forall f | !KeyField(f) ensures SameField(e.fields, x, f) {
      if Elsewhere(f) { assert SameField(e.fields, n, f); }
    }
  }

  lemma StrayBreaks(write: Writer, s: Shared, e: Value, n: Entry, events: seq<Key>)
    requires Files(s, e, n, events) && Stray(e) && WellKeyed(write, QUOTA_FIELDS, s.quotas) && Resolves(s, n)
    ensures !Restored(e, Expanded(s, n))
  {
    var k := TextAt(n, QuotaPolicyKey).value;
    assert Keyed1(write, QUOTA_FIELDS, s.quotas, k);
    assert !SameField(e.fields, Expanded(s, n), QuotaPolicy);
  }

  // ----- All entries -----

  ghost predicate AllWellKeyed(write: Writer, s: Shared) {
    && WellKeyed(write, TASK_FIELDS, s.tasks) && WellKeyed(write, EVENT_FIELDS, s.events)
    && WellKeyed(write, QUOTA_FIELDS, s.quotas) && WellKeyed(write, GENERATION_FIELDS, s.generations)
  }

  lemma NormalizeKeepsKeys(write: Writer, s: Shared, e: Value)
    requires Normalize(write, s, e).Some? && AllWellKeyed(write, s)
    ensures AllWellKeyed(write, Normalize(write, s, e).value.0)
  {
    ShareFiles(write, s.tasks, e.fields[Task], TASK_FIELDS);
    ShareEventsFiles(write, s.events, e.fields[TaskEvents].items);
    ShareFiles(write, s.generations, e.fields[KeyGenerationMetadata], GENERATION_FIELDS);
    if !e.fields[QuotaPolicy].Null? { ShareFiles(write, s.quotas, e.fields[QuotaPolicy], QUOTA_FIELDS); }
  }

  lemma EventsUsed(write: Writer, events: map<string, Value>, items: seq<Value>, n: Entry, k: string)
    requires var shared := ShareEvents(write, events, items);
             && shared.Some? && TaskEventKeys in n && n[TaskEventKeys] == List(Keys(shared.value.1))
             && k in shared.value.0 && k !in events
    ensures HasEvent(n, k)
  {
    ShareEventsFiles(write, events, items);
    var keys := ShareEvents(write, events, items).value.1;
    var i :| 0 <= i < |keys| && keys[i] == k;
    assert Keys(keys)[i] == Text(k);
  }

  // A key that one push adds is one that its entry refers to.
  lemma NormalizeUses(write: Writer, s: Shared, e: Value)
    requires Normalize(write, s, e).Some?
    ensures var (t, n) := Normalize(write, s, e).value;
            && (forall k | k in t.tasks && k !in s.tasks :: TextAt(n, TaskKey) == Some(k))
            && (forall k | k in t.events && k !in s.events :: HasEvent(n, k))
            && (forall k | k in t.quotas && k !in s.quotas :: TextAt(n, QuotaPolicyKey) == Some(k))
            && (forall k | k in t.generations && k !in s.generations :: TextAt(n, KeyGenerationKey) == Some(k))
  {
    var (t, n) := Normalize(write, s, e).value;
    forall k | k in t.events && k !in s.events ensures HasEvent(n, k) {
      EventsUsed(write, s.events, e.fields[TaskEvents].items, n, k);
    }
  }

  lemma UsesMore(write: Writer, s: Shared, e: Value, ns: seq<Entry>)
    requires Normalize(write, s, e).Some? && AllUsed(s, ns)
    ensures AllUsed(Normalize(write, s, e).value.0, ns + [Normalize(write, s, e).value.1])
  {
    var (t, n) := Normalize(write, s, e).value;
    NormalizeUses(write, s, e);
    forall k | k in t.tasks ensures Refers(ns + [n], TaskKey, k) { RefersMore(ns, n, TaskKey, k); }
    forall k | k in t.events ensures RefersToEvent(ns + [n], k) { RefersMore(ns, n, TaskKey, k); }
    forall k | k in t.quotas ensures Refers(ns + [n], QuotaPolicyKey, k) { RefersMore(ns, n, QuotaPolicyKey, k); }
    forall k | k in t.generations ensures Refers(ns + [n], KeyGenerationKey, k) {
      RefersMore(ns, n, KeyGenerationKey, k);
    }
  }

  ghost predicate Filed1(s: Shared, e: Value, n: Entry) { exists events :: Files(s, e, n, events) }

  ghost predicate AllFiled(s: Shared, entries: seq<Value>, ns: seq<Entry>) {
    |ns| == |entries| && forall i | 0 <= i < |ns| :: Filed1(s, entries[i], ns[i])
  }

  lemma FiledMore(write: Writer, s: Shared, entries: seq<Value>, ns: seq<Entry>, e: Value)
    requires AllFiled(s, entries, ns) && Normalize(write, s, e).Some?
    ensures var (t, n) := Normalize(write, s, e).value; AllFiled(t, entries + [e], ns + [n])
  {
    var (t, n) := Normalize(write, s, e).value;
    var events := NormalizeFiles(write, s, e);
    forall i | 0 <= i < |entries| ensures Filed1(t, entries[i], ns[i]) {
      assert Filed1(s, entries[i], ns[i]);
      var keys :| Files(s, entries[i], ns[i], keys);
      assert Files(t, entries[i], ns[i], keys);
    }
    assert Filed1(t, e, n);
  }

  lemma {:induction false} BackupFilesAll(write: Writer, entries: seq<Value>)
    requires NormalizeAll(write, entries).Some?
    ensures var (s, ns) := NormalizeAll(write, entries).value;
            AllFiled(s, entries, ns) && AllWellKeyed(write, s) && AllUsed(s, ns)
  {
    if entries != [] {
      var n := |entries| - 1;
      BackupFilesAll(write, entries[..n]);
      var (s, ns) := NormalizeAll(write, entries[..n]).value;
      FiledMore(write, s, entries[..n], ns, entries[n]);
      NormalizeKeepsKeys(write, s, entries[n]);
      UsesMore(write, s, entries[n], ns);
      assert entries[..n] + [entries[n]] == entries;
    }
  }

  lemma ListedIsKeyed(write: Writer, fields: seq<Field>, list: seq<Value>, rows: Rows)
    requires Lists(list, rows) && WellKeyed(write, fields, rows)
    ensures Keyable(write, fields, list) && KeyMap(write, fields, list, rows)
  {
    var keys :| ListedBy(list, rows, keys);
    forall i | 0 <= i < |list|
      ensures RowKey(write, list[i], fields) == Some(keys[i]) && Filed(write, fields, list[i], rows)
    {
      assert Keyed1(write, fields, rows, keys[i]);
    }
    forall k | k in rows ensures rows[k] in list && RowKey(write, rows[k], fields) == Some(k) {
      assert Keyed1(write, fields, rows, k);
      var i :| 0 <= i < |keys| && keys[i] == k;
    }
  }

  // What `Finish` writes.
  ghost predicate Finished(s: Shared, ns: seq<Entry>, inv: Inventory) {
    && inv.entries == ns
    && Lists(inv.tasks, s.tasks) && Lists(inv.events, s.events) && Lists(inv.quotas, s.quotas)
    && Lists(inv.generations, s.generations)
  }

  lemma FinishedIsKeyed(write: Writer, s: Shared, ns: seq<Entry>, inv: Inventory)
    requires AllWellKeyed(write, s) && Finished(s, ns, inv)
    ensures AllKeyable(write, inv) && KeyMaps(write, inv, s)
  {
    ListedIsKeyed(write, TASK_FIELDS, inv.tasks, s.tasks);
    ListedIsKeyed(write, EVENT_FIELDS, inv.events, s.events);
    ListedIsKeyed(write, QUOTA_FIELDS, inv.quotas, s.quotas);
    ListedIsKeyed(write, GENERATION_FIELDS, inv.generations, s.generations);
  }

  // Expanding `n` gives `e` back.
  ghost predicate GivesBack(s: Shared, e: Value, n: Entry) {
    e.Object? && Resolves(s, n) && Restored(e, Expanded(s, n))
  }

  lemma GivesBackIff(write: Writer, s: Shared, e: Value, n: Entry)
    requires Filed1(s, e, n) && WellKeyed(write, QUOTA_FIELDS, s.quotas)
    ensures Complete(e) && (GivesBack(s, e, n) <==> !Stray(e))
  {
    var keys :| Files(s, e, n, keys);
    if !Stray(e) { FilesRestore(s, e, n, keys); }
    else if Resolves(s, n) { StrayBreaks(write, s, e, n, keys); }
  }

  /** For every list of entries that the backup accepts: expanding the finished inventory succeeds and gives
      back every field of every entry, in particular its task, ordered events, key generation and quota
      policy, if and only if no entry with a null quota policy carries a string under `quotaPolicyKey`. */
  lemma RoundTripIff(write: Writer, entries: seq<Value>, inv: Inventory)
    requires NormalizeAll(write, entries).Some?
    requires Finished(NormalizeAll(write, entries).value.0, NormalizeAll(write, entries).value.1, inv)
    ensures |inv.entries| == |entries| && forall i | 0 <= i < |entries| :: Complete(entries[i])
    ensures var s := NormalizeAll(write, entries).value.0;
            (Restorable(write, inv, s) &&
             forall i | 0 <= i < |entries| :: GivesBack(s, entries[i], inv.entries[i])) <==>
            (forall i | 0 <= i < |entries| :: !Stray(entries[i]))
  {
    var (s, ns) := NormalizeAll(write, entries).value;
    BackupFilesAll(write, entries);
    FinishedIsKeyed(write, s, ns, inv);
    forall i | 0 <= i < |entries|
      ensures Complete(entries[i]) && (GivesBack(s, entries[i], ns[i]) <==> !Stray(entries[i]))
    {
      assert Filed1(s, entries[i], ns[i]);
      GivesBackIff(write, s, entries[i], ns[i]);
    }
  }

  lemma {:induction false} RefusedForGood(write: Writer, entries: seq<Value>, n: nat)
    requires n <= |entries| && NormalizeAll(write, entries[..n]).None?
    ensures NormalizeAll(write, entries).None?
    decreases |entries|
  {
    if n < |entries| {
      var m := |entries| - 1;
      assert entries[..m][..n] == entries[..n];
      RefusedForGood(write, entries[..m], n);
    } else {
      assert entries[..n] == entries;
    }
  }

  lemma OneMoreEntry(write: Writer, entries: seq<Value>, i: nat)
    requires i < |entries| && NormalizeAll(write, entries[..i]).Some?
    ensures var (s, ns) := NormalizeAll(write, entries[..i]).value;
            var last := Normalize(write, s, entries[i]);
            NormalizeAll(write, entries[..i + 1]) ==
              if last.None? then None else Some((last.value.0, ns + [last.value.1]))
  {
    var next := entries[..i + 1];
    assert next[..|next| - 1] == entries[..i] && next[|next| - 1] == entries[i];
  }

  method PushAll(write: Writer, entries: seq<Value>) returns (r: Option<Inventory>)
    ensures r.Some? <==> NormalizeAll(write, entries).Some?
    ensures r.Some? ==> Finished(NormalizeAll(write, entries).value.0, NormalizeAll(write, entries).value.1, r.value)
  {
    var stream := new InventoryStream(write);
    var i := 0;
    while i < |entries|
      invariant 0 <= i <= |entries| && stream.write == write
      invariant NormalizeAll(write, entries[..i]) == Some(stream.Contents())
    {
      OneMoreEntry(write, entries, i);
      var ok := stream.Push(entries[i]);
      if !ok {
        RefusedForGood(write, entries, i + 1);
        return None;
      }
      i := i + 1;
    }
    assert entries[..i] == entries;
    var inv := stream.Finish();
    return Some(inv);
  }

  /** The backup of a list of entries, written through the stream: there is one if and only if the entries are
      complete and agree on the rows that they share. */
  method WriteInventory(write: Writer, entries: seq<Value>) returns (r: Option<Inventory>)
    ensures r.Some? <==> Acceptable(write, entries)
    ensures r.Some? <==> NormalizeAll(write, entries).Some?
    ensures r.Some? ==> Finished(NormalizeAll(write, entries).value.0, NormalizeAll(write, entries).value.1, r.value)
  {
    AcceptedIff(write, entries);
    r := PushAll(write, entries);
  }

  // The rows that restoring finds under their keys are those that the backup shared.
  lemma SameShared(write: Writer, inv: Inventory, m: Shared, s: Shared)
    requires KeyMaps(write, inv, m) && KeyMaps(write, inv, s)
    ensures m == s
  {
    KeyMapIsUnique(write, TASK_FIELDS, inv.tasks, m.tasks, s.tasks);
    KeyMapIsUnique(write, EVENT_FIELDS, inv.events, m.events, s.events);
    KeyMapIsUnique(write, QUOTA_FIELDS, inv.quotas, m.quotas, s.quotas);
    KeyMapIsUnique(write, GENERATION_FIELDS, inv.generations, m.generations, s.generations);
  }

  ghost predicate AllRestored(entries: seq<Value>, r: Option<seq<Entry>>) {
    r.Some? && |r.value| == |entries| && forall i | 0 <= i < |entries| ::
      entries[i].Object? && Restored(entries[i], r.value[i])
  }

  lemma BackupIsKeyed(write: Writer, entries: seq<Value>, inv: Inventory)
    requires NormalizeAll(write, entries).Some?
    requires Finished(NormalizeAll(write, entries).value.0, NormalizeAll(write, entries).value.1, inv)
    ensures KeyMaps(write, inv, NormalizeAll(write, entries).value.0)
  {
    BackupFilesAll(write, entries);
    FinishedIsKeyed(write, NormalizeAll(write, entries).value.0, NormalizeAll(write, entries).value.1, inv);
  }

  ghost predicate AllGiveBack(s: Shared, entries: seq<Value>, ns: seq<Entry>) {
    |ns| == |entries| && forall i | 0 <= i < |entries| :: GivesBack(s, entries[i], ns[i])
  }

  lemma ExpandedRestores(s: Shared, entries: seq<Value>, ns: seq<Entry>)
    requires AllResolve(s, ns) && |ns| == |entries|
    ensures AllRestored(entries, Some(ExpandAll(s, ns))) <==> AllGiveBack(s, entries, ns)
  {
    var r := ExpandAll(s, ns);
    assert forall i | 0 <= i < |ns| :: r[i] == Expanded(s, ns[i]);
    if AllRestored(entries, Some(r)) {
      forall i | 0 <= i < |entries| ensures GivesBack(s, entries[i], ns[i]) { assert Restored(entries[i], r[i]); }
    }
    if AllGiveBack(s, entries, ns) {
      forall i | 0 <= i < |entries| ensures entries[i].Object? && Restored(entries[i], r[i]) {
        assert GivesBack(s, entries[i], ns[i]);
      }
    }
  }

  lemma ExpansionRestores(write: Writer, entries: seq<Value>, inv: Inventory, r: Option<seq<Entry>>)
    requires NormalizeAll(write, entries).Some?
    requires Finished(NormalizeAll(write, entries).value.0, NormalizeAll(write, entries).value.1, inv)
    requires r.Some? <==> exists m :: Restorable(write, inv, m)
    requires forall m | Restorable(write, inv, m) :: r == Some(ExpandAll(m, inv.entries))
    ensures forall i | 0 <= i < |entries| :: Complete(entries[i])
    ensures AllRestored(entries, r) <==> forall i | 0 <= i < |entries| :: !Stray(entries[i])
  {
    var s := NormalizeAll(write, entries).value.0;
    RoundTripIff(write, entries, inv);
    if r.Some? {
      var m :| Restorable(write, inv, m);
      BackupIsKeyed(write, entries, inv);
      SameShared(write, inv, m, s);
      ExpandedRestores(s, entries, inv.entries);
    }
  }

  /** Backing up and restoring in one: whatever the backup accepts comes back, every field of every entry, if
      and only if no entry with a null quota policy carries a string under `quotaPolicyKey`. */
  method BackUpAndRestore(write: Writer, entries: seq<Value>) returns (accepted: bool, r: Option<seq<Entry>>)
    ensures accepted <==> Acceptable(write, entries)
    ensures accepted ==> forall i | 0 <= i < |entries| :: Complete(entries[i])
    ensures accepted ==> (AllRestored(entries, r) <==> forall i | 0 <= i < |entries| :: !Stray(entries[i]))
  {
    var inventory := WriteInventory(write, entries);
    if inventory.None? {
      return false, None;
    }
    r := ExpandSharedRows(write, inventory.value);
    ExpansionRestores(write, entries, inventory.value, r);
    return true, r;
  }

  /** Such an entry is accepted, so the condition of the round trip is not empty. */
  lemma StrayIsAccepted(write: Writer) returns (e: Value)
    ensures NormalizeAll(write, [e]).Some? && Complete(e) && Stray(e)
  {
    var row := Object(map[TenantScope := Null, TaskId := Null, EncryptionDomain := Null, KeyGeneration := Null]);
    e := Object(map[Task := row, TaskEvents := List([]), KeyGenerationMetadata := row, QuotaPolicy := Null,
                    QuotaPolicyKey := Text("k")]);
    assert [e][..0] == [];
    assert HasFields(row, TASK_FIELDS) && HasFields(row, GENERATION_FIELDS);
    assert NormalizeAll(write, []) == Some((Shared(map[], map[], map[], map[]), []));
    assert ShareEvents(write, map[], []) == Some((map[], []));
  }
}
