/** Putting the shared rows of an inventory back into its entries. */
module Restore {
  import opened Options
  import opened Backup

  // ----- Keyed rows -----

  predicate Keyable(write: Writer, fields: seq<Field>, rows: seq<Value>) {
    && (forall i | 0 <= i < |rows| :: RowKey(write, rows[i], fields).Some?)
    && (forall i, j | 0 <= i < j < |rows| :: RowKey(write, rows[i], fields) != RowKey(write, rows[j], fields))
  }

  // The map from keys to rows; there is only one.
  ghost predicate KeyMap(write: Writer, fields: seq<Field>, rows: seq<Value>, m: Rows) {
    && (forall i | 0 <= i < |rows| :: Filed(write, fields, rows[i], m))
    && (forall k | k in m :: m[k] in rows && RowKey(write, m[k], fields) == Some(k))
  }

  predicate Filed(write: Writer, fields: seq<Field>, row: Value, m: Rows) {
    var key := RowKey(write, row, fields);
    key.Some? && key.value in m && m[key.value] == row
  }

  method Keyed(write: Writer, rows: seq<Value>, fields: seq<Field>) returns (r: Option<Rows>)
    ensures r.Some? <==> Keyable(write, fields, rows)
    ensures r.Some? ==> KeyMap(write, fields, rows, r.value)
  {
    var m: Rows := map[];
    var i := 0;
    while i < |rows|
      invariant 0 <= i <= |rows|
      invariant Keyable(write, fields, rows[..i]) && KeyMap(write, fields, rows[..i], m)
    {
      var key := RowKey(write, rows[i], fields);
      if key.None? {
        return None;
      }
      if key.value in m {
        ghost var j :| 0 <= j < i && rows[..i][j] == m[key.value];
        assert RowKey(write, rows[j], fields) == RowKey(write, rows[i], fields);
        return None;
      }
      assert forall j | 0 <= j < i :: Filed(write, fields, rows[..i][j], m);
      m := m[key.value := rows[i]];
      assert rows[..i + 1] == rows[..i] + [rows[i]];
      i := i + 1;
    }
    assert rows[..i] == rows;
    return Some(m);
  }

  // ----- Expansion -----

  function TextAt(n: Entry, f: Field): Option<Key> {
    if f in n && n[f].Text? then Some(n[f].text) else None
  }

  predicate EventsResolve(rows: Rows,
                          keys: seq<Value>) { forall i | 0 <= i < |keys| :: keys[i].Text? && keys[i].text in rows }

  predicate Resolves(m: Shared, n: Entry) {
    && TextAt(n, TaskKey).Some? && TextAt(n, TaskKey).value in m.tasks
    && TaskEventKeys in n && n[TaskEventKeys].List? && EventsResolve(m.events, n[TaskEventKeys].items)
    && TextAt(n, KeyGenerationKey).Some? && TextAt(n, KeyGenerationKey).value in m.generations
    && (TextAt(n, QuotaPolicyKey).Some? ==> TextAt(n, QuotaPolicyKey).value in m.quotas)
  }

  function EventsOf(rows: Rows, keys: seq<Value>): seq<Value>
    requires EventsResolve(rows, keys)
  {
    seq(|keys|, i requires 0 <= i < |keys| => rows[keys[i].text])
  }

  function Expanded(m: Shared, n: Entry): Entry
    requires Resolves(m, n)
  {
    n[Task := m.tasks[TextAt(n, TaskKey).value]]
     [TaskEvents := List(EventsOf(m.events, n[TaskEventKeys].items))]
     [KeyGenerationMetadata := m.generations[TextAt(n, KeyGenerationKey).value]]
     [QuotaPolicy := if TextAt(n, QuotaPolicyKey).Some? then m.quotas[TextAt(n, QuotaPolicyKey).value] else Null]
  }

  // The keys that the entries refer to.
  ghost predicate Refers(entries: seq<Entry>, f: Field, k: Key) {
    exists i :: 0 <= i < |entries| && TextAt(entries[i], f) == Some(k)
  }

  ghost predicate RefersToEvent(entries: seq<Entry>, k: Key) {
    exists i :: 0 <= i < |entries| && HasEvent(entries[i], k)
  }

  predicate HasEvent(n: Entry,
                     k: Key) { TaskEventKeys in n && n[TaskEventKeys].List? && Text(k) in n[TaskEventKeys].items }

  ghost predicate AllUsed(m: Shared, entries: seq<Entry>) {
    && (forall k | k in m.tasks :: Refers(entries, TaskKey, k))
    && (forall k | k in m.events :: RefersToEvent(entries, k))
    && (forall k | k in m.quotas :: Refers(entries, QuotaPolicyKey, k))
    && (forall k | k in m.generations :: Refers(entries, KeyGenerationKey, k))
  }

  ghost predicate KeyMaps(write: Writer, inv: Inventory, m: Shared) {
    && KeyMap(write, TASK_FIELDS, inv.tasks, m.tasks) && KeyMap(write, EVENT_FIELDS, inv.events, m.events)
    && KeyMap(write, QUOTA_FIELDS, inv.quotas, m.quotas)
    && KeyMap(write, GENERATION_FIELDS, inv.generations, m.generations)
  }

  predicate AllKeyable(write: Writer, inv: Inventory) {
    && Keyable(write, TASK_FIELDS, inv.tasks) && Keyable(write, EVENT_FIELDS, inv.events)
    && Keyable(write, QUOTA_FIELDS, inv.quotas) && Keyable(write, GENERATION_FIELDS, inv.generations)
  }

  predicate AllResolve(m: Shared, entries: seq<Entry>) { forall i | 0 <= i < |entries| :: Resolves(m, entries[i]) }

  method ExpandEntry(m: Shared, n: Entry) returns (r: Option<Entry>)
    ensures r.Some? <==> Resolves(m, n)
    ensures r.Some? ==> r.value == Expanded(m, n)
  {
    var task := TextAt(n, TaskKey);
    if task.None? || task.value !in m.tasks {
      return None;
    }
    if TaskEventKeys !in n || !n[TaskEventKeys].List? {
      return None;
    }
    var keys, events, i := n[TaskEventKeys].items, [], 0;
    while i < |keys|
      invariant 0 <= i <= |keys| && EventsResolve(m.events, keys[..i])
      invariant events == EventsOf(m.events, keys[..i])
    {
      if !keys[i].Text? || keys[i].text !in m.events {
        return None;
      }
      events := events + [m.events[keys[i].text]];
      i := i + 1;
    }
    assert keys[..i] == keys;
    var generation := TextAt(n, KeyGenerationKey);
    if generation.None? || generation.value !in m.generations {
      return None;
    }
    var quota := TextAt(n, QuotaPolicyKey);
    if quota.Some? && quota.value !in m.quotas {
      return None;
    }
    return Some(n[Task := m.tasks[task.value]][TaskEvents := List(events)]
                 [KeyGenerationMetadata := m.generations[generation.value]]
                 [QuotaPolicy := if quota.Some? then m.quotas[quota.value] else Null]);
  }

  lemma KeyMapIsUnique(write: Writer, fields: seq<Field>, rows: seq<Value>, m: Rows, n: Rows)
    requires KeyMap(write, fields, rows, m) && KeyMap(write, fields, rows, n)
    ensures m == n
  {
    forall k | k in m ensures k in n && n[k] == m[k] {
      var i :| 0 <= i < |rows| && rows[i] == m[k];
      assert Filed(write, fields, rows[i], n);
    }
    forall k | k in n ensures k in m {
      var i :| 0 <= i < |rows| && rows[i] == n[k];
      assert Filed(write, fields, rows[i], m);
    }
  }

  // The inventory can be expanded: shared keys are unique and are exactly those that entries refer to.
  ghost predicate Restorable(write: Writer, inv: Inventory, m: Shared) {
    AllKeyable(write, inv) && KeyMaps(write, inv, m) && AllResolve(m, inv.entries) && AllUsed(m, inv.entries)
  }

  function ExpandAll(m: Shared, entries: seq<Entry>): seq<Entry>
    requires AllResolve(m, entries)
  {
    seq(|entries|, i requires 0 <= i < |entries| => Expanded(m, entries[i]))
  }

  lemma {:induction false} SameSize(a: set<Key>, b: set<Key>)
    requires a <= b && |a| == |b|
    ensures a == b
  {
    if a != {} {
      var x :| x in a;
      SameSize(a - {x}, b - {x});
    }
  }

  datatype Used = Used(tasks: set<Key>, events: set<Key>, quotas: set<Key>, generations: set<Key>)

  function KeySet(key: Option<Key>): set<Key> { if key.Some? then {key.value} else {} }

  function Use(u: Used, n: Entry): Used {
    Used(u.tasks + KeySet(TextAt(n, TaskKey)),
         if TaskEventKeys in n && n[TaskEventKeys].List?
         then u.events + (set i | 0 <= i < |n[TaskEventKeys].items| && n[TaskEventKeys].items[i].Text? ::
                          n[TaskEventKeys].items[i].text)
         else u.events,
         u.quotas + KeySet(TextAt(n, QuotaPolicyKey)), u.generations + KeySet(TextAt(n, KeyGenerationKey)))
  }

  // The used sets are the references of the entries.
  ghost predicate UsedBy(u: Used, entries: seq<Entry>) {
    && (forall k :: k in u.tasks <==> Refers(entries, TaskKey, k))
    && (forall k :: k in u.events <==> RefersToEvent(entries, k))
    && (forall k :: k in u.quotas <==> Refers(entries, QuotaPolicyKey, k))
    && (forall k :: k in u.generations <==> Refers(entries, KeyGenerationKey, k))
  }

  lemma RefersMore(entries: seq<Entry>, n: Entry, f: Field, k: Key)
    ensures Refers(entries + [n], f, k) <==> Refers(entries, f, k) || TextAt(n, f) == Some(k)
    ensures RefersToEvent(entries + [n], k) <==> RefersToEvent(entries, k) || HasEvent(n, k)
  {
    var more := entries + [n];
    assert more[|entries|] == n;
    if Refers(entries, f, k) {
      var i :| 0 <= i < |entries| && TextAt(entries[i], f) == Some(k);
      assert more[i] == entries[i];
    }
    if RefersToEvent(entries, k) {
      var i :| 0 <= i < |entries| && HasEvent(entries[i], k);
      assert more[i] == entries[i];
    }
  }

  lemma UseMore(u: Used, entries: seq<Entry>, n: Entry)
    requires UsedBy(u, entries)
    ensures UsedBy(Use(u, n), entries + [n])
  {
    var v := Use(u, n);
    forall k ensures k in v.tasks <==> Refers(entries + [n], TaskKey, k) { RefersMore(entries, n, TaskKey, k); }
    forall k ensures k in v.quotas <==> Refers(entries + [n], QuotaPolicyKey, k) {
      RefersMore(entries, n, QuotaPolicyKey, k);
    }
    forall k ensures k in v.generations <==> Refers(entries + [n], KeyGenerationKey, k) {
      RefersMore(entries, n, KeyGenerationKey, k);
    }
    forall k ensures k in v.events <==> RefersToEvent(entries + [n], k) { RefersMore(entries, n, TaskKey, k); }
  }

  function UsedOf(entries: seq<Entry>): Used {
    if entries == [] then Used({}, {}, {}, {}) else Use(UsedOf(entries[..|entries| - 1]), entries[|entries| - 1])
  }

  lemma {:induction false} UsedOfIsUsed(entries: seq<Entry>)
    ensures UsedBy(UsedOf(entries), entries)
  {
    if entries != [] {
      var n := |entries| - 1;
      UsedOfIsUsed(entries[..n]);
      UseMore(UsedOf(entries[..n]), entries[..n], entries[n]);
      assert entries == entries[..n] + [entries[n]];
    }
  }

  lemma CountDecides(u: set<Key>, m: Rows)
    requires u <= m.Keys
    ensures m.Keys <= u <==> |u| == |m|
  {
    assert |m| == |m.Keys|;
    if |u| == |m| { SameSize(u, m.Keys); }
    if m.Keys <= u { assert u == m.Keys; }
  }

  // The used keys are keys, and all are used if they are all of them.
  lemma UsedWithin(u: Used, m: Shared, entries: seq<Entry>)
    requires UsedBy(u, entries) && AllResolve(m, entries)
    ensures u.tasks <= m.tasks.Keys && u.events <= m.events.Keys && u.quotas <= m.quotas.Keys &&
            u.generations <= m.generations.Keys
    ensures AllUsed(m, entries) <==>
            m.tasks.Keys <= u.tasks && m.events.Keys <= u.events && m.quotas.Keys <= u.quotas &&
            m.generations.Keys <= u.generations
  {
  }

  predicate Counts(u: Used, m: Shared) {
    |u.tasks| == |m.tasks| && |u.events| == |m.events| && |u.quotas| == |m.quotas| && |u.generations| == |m.generations|
  }

  // Counting the used keys tells whether all are used.
  lemma CountsDecide(m: Shared, entries: seq<Entry>)
    requires AllResolve(m, entries)
    ensures AllUsed(m, entries) <==> Counts(UsedOf(entries), m)
  {
    var u := UsedOf(entries);
    UsedOfIsUsed(entries);
    UsedWithin(u, m, entries);
    CountDecides(u.tasks, m.tasks);
    CountDecides(u.events, m.events);
    CountDecides(u.quotas, m.quotas);
    CountDecides(u.generations, m.generations);
  }

  /** Expansion succeeds exactly when the shared rows have unique keys and these are exactly the keys the
      entries refer to, and then puts into each entry the rows its keys stand for. */
  method ExpandSharedRows(write: Writer, inv: Inventory) returns (r: Option<seq<Entry>>)
    ensures r.Some? <==> exists m :: Restorable(write, inv, m)
    ensures forall m | Restorable(write, inv, m) :: r == Some(ExpandAll(m, inv.entries))
  {
    var tasks := Keyed(write, inv.tasks, TASK_FIELDS);
    if tasks.None? { return None; }
    var events := Keyed(write, inv.events, EVENT_FIELDS);
    if events.None? { return None; }
    var quotas := Keyed(write, inv.quotas, QUOTA_FIELDS);
    if quotas.None? { return None; }
    var generations := Keyed(write, inv.generations, GENERATION_FIELDS);
    if generations.None? { return None; }
    var m := Shared(tasks.value, events.value, quotas.value, generations.value);
    forall n | KeyMaps(write, inv, n) ensures n == m {
      KeyMapIsUnique(write, TASK_FIELDS, inv.tasks, m.tasks, n.tasks);
      KeyMapIsUnique(write, EVENT_FIELDS, inv.events, m.events, n.events);
      KeyMapIsUnique(write, QUOTA_FIELDS, inv.quotas, m.quotas, n.quotas);
      KeyMapIsUnique(write, GENERATION_FIELDS, inv.generations, m.generations, n.generations);
    }
    r := ExpandWith(m, inv.entries);
    if r.Some? { assert Restorable(write, inv, m); }
  }

  method ExpandWith(m: Shared, entries: seq<Entry>) returns (r: Option<seq<Entry>>)
    ensures r.Some? <==> AllResolve(m, entries) && AllUsed(m, entries)
    ensures r.Some? ==> r.value == ExpandAll(m, entries)
  {
    var expanded, used := ExpandEntries(m, entries);
    if expanded.None? { return None; }
    CountsDecide(m, entries);
    if !Counts(used, m) { return None; }
    return expanded;
  }

  lemma ExpandMore(m: Shared, entries: seq<Entry>, n: Entry)
    requires AllResolve(m, entries) && Resolves(m, n)
    ensures AllResolve(m, entries + [n]) && ExpandAll(m, entries + [n]) == ExpandAll(m, entries) + [Expanded(m, n)]
    ensures UsedOf(entries + [n]) == Use(UsedOf(entries), n)
  {
    assert (entries + [n])[..|entries|] == entries;
  }

  method ExpandEntries(m: Shared, entries: seq<Entry>) returns (r: Option<seq<Entry>>, used: Used)
    ensures r.Some? <==> AllResolve(m, entries)
    ensures r.Some? ==> r.value == ExpandAll(m, entries) && used == UsedOf(entries)
  {
    var out, i := [], 0;
    used := Used({}, {}, {}, {});
    while i < |entries|
      invariant 0 <= i <= |entries| && AllResolve(m, entries[..i])
      invariant used == UsedOf(entries[..i]) && out == ExpandAll(m, entries[..i])
    {
      var expanded := ExpandEntry(m, entries[i]);
      if expanded.None? { return None, used; }
      ExpandMore(m, entries[..i], entries[i]);
      assert entries[..i] + [entries[i]] == entries[..i + 1];
      out, used := out + [expanded.value], Use(used, entries[i]);
      i := i + 1;
    }
    assert entries[..i] == entries;
    return Some(out), used;
  }
}
