/**
 The backup inventory. Rows that many entries share are written once and replaced in each entry by a
 key; restoring puts them back. A key is the JSON text of some of the row's own fields, and nothing is
 assumed of that text, not even that different rows have different keys.
 */
module Backup {
  import opened Options

  datatype Field =
    | Task | TaskKey | TaskEvents | TaskEventKeys
    | KeyGenerationMetadata | KeyGenerationKey | QuotaPolicy | QuotaPolicyKey
    | TenantScope | TaskId | EventSeq | EncryptionDomain | KeyGeneration | PolicyId | PolicyRevision
    | Other(name: int)

  datatype Value =
    Null | Text(text: string) | List(items: seq<Value>) | Object(fields: map<Field, Value>) | Scalar(id: int)

  type Key = string
  type Rows = map<Key, Value>
  type Entry = map<Field, Value>
  type Writer = seq<Value> -> Key

  const TASK_FIELDS := [TenantScope, TaskId]
  const EVENT_FIELDS := [TenantScope, TaskId, EventSeq]
  const GENERATION_FIELDS := [TenantScope, EncryptionDomain, KeyGeneration]
  const QUOTA_FIELDS := [TenantScope, PolicyId, PolicyRevision]

  datatype Shared = Shared(tasks: Rows, events: Rows, quotas: Rows, generations: Rows)

  predicate HasFields(v: Value,
                      fields: seq<Field>) { v.Object? && forall i | 0 <= i < |fields| :: fields[i] in v.fields }

  function RowKey(write: Writer, v: Value, fields: seq<Field>): Option<Key> {
    if !HasFields(v, fields) then None
    else Some(write(seq(|fields|, i requires 0 <= i < |fields| => v.fields[fields[i]])))
  }

  function InsertShared(rows: Rows, key: Key, v: Value): Option<Rows> {
    if key !in rows then Some(rows[key := v]) else if rows[key] == v then Some(rows) else None
  }

  function Share(write: Writer, rows: Rows, v: Value, fields: seq<Field>): Option<(Rows, Key)> {
    var key := RowKey(write, v, fields);
    if key.None? then None
    else
      var next := InsertShared(rows, key.value, v);
      if next.None? then None else Some((next.value, key.value))
  }

  // The shared events and the keys of the first events of an entry.
  function ShareEvents(write: Writer, rows: Rows, events: seq<Value>): Option<(Rows, seq<Key>)> {
    if events == [] then Some((rows, []))
    else
      var n := |events| - 1;
      var front := ShareEvents(write, rows, events[..n]);
      if front.None? then None
      else
        var last := Share(write, front.value.0, events[n], EVENT_FIELDS);
        if last.None? then None else Some((last.value.0, front.value.1 + [last.value.1]))
  }

  function Keys(keys: seq<Key>): seq<Value> { seq(|keys|, i requires 0 <= i < |keys| => Text(keys[i])) }

  predicate Complete(e: Value) {
    && e.Object? && Task in e.fields && TaskEvents in e.fields && e.fields[TaskEvents].List?
    && KeyGenerationMetadata in e.fields && QuotaPolicy in e.fields
  }

  function ShareQuota(write: Writer, rows: Rows, quota: Value): Option<(Rows, Option<Key>)> {
    if quota.Null? then Some((rows, None))
    else
      var shared := Share(write, rows, quota, QUOTA_FIELDS);
      if shared.None? then None else Some((shared.value.0, Some(shared.value.1)))
  }

  // The entry with its rows taken out and their keys put in. A null quota policy sets no key.
  function Replaced(e: Entry, task: Key, events: seq<Key>, generation: Key, quota: Option<Key>): Entry {
    var n := e[Task := Null][TaskKey := Text(task)][TaskEvents := Null][TaskEventKeys := List(Keys(events))]
              [KeyGenerationMetadata := Null][KeyGenerationKey := Text(generation)][QuotaPolicy := Null];
    if quota.Some? then n[QuotaPolicyKey := Text(quota.value)] else n
  }

  /** One `push`: the shared rows and the entry to write, or a refusal. */
  function Normalize(write: Writer, s: Shared, e: Value): Option<(Shared, Entry)> {
    if !Complete(e) then None
    else
      var tasks := Share(write, s.tasks, e.fields[Task], TASK_FIELDS);
      var events := ShareEvents(write, s.events, e.fields[TaskEvents].items);
      var generations := Share(write, s.generations, e.fields[KeyGenerationMetadata], GENERATION_FIELDS);
      var quotas := ShareQuota(write, s.quotas, e.fields[QuotaPolicy]);
      if tasks.None? || events.None? || generations.None? || quotas.None? then None
      else Some((Shared(tasks.value.0, events.value.0, quotas.value.0, generations.value.0),
                 Replaced(e.fields, tasks.value.1, events.value.1, generations.value.1, quotas.value.1)))
  }

  function NormalizeAll(write: Writer, entries: seq<Value>): Option<(Shared, seq<Entry>)> {
    if entries == [] then Some((Shared(map[], map[], map[], map[]), []))
    else
      var n := |entries| - 1;
      var front := NormalizeAll(write, entries[..n]);
      if front.None? then None
      else
        var last := Normalize(write, front.value.0, entries[n]);
        if last.None? then None else Some((last.value.0, front.value.1 + [last.value.1]))
  }

  datatype Inventory = Inventory(entries: seq<Entry>, tasks: seq<Value>, events: seq<Value>, quotas: seq<Value>,
                                 generations: seq<Value>)

  // A list of the values of the rows, each key once, in some order.
  ghost predicate Lists(list: seq<Value>, rows: Rows) {
    exists keys: seq<Key> :: ListedBy(list, rows, keys)
  }

  ghost predicate ListedBy(list: seq<Value>, rows: Rows, keys: seq<Key>) {
    && |keys| == |list|
    && (forall i | 0 <= i < |list| :: keys[i] in rows && rows[keys[i]] == list[i])
    && (forall i, j | 0 <= i < j < |keys| :: keys[i] != keys[j])
    && (forall k | k in rows :: k in keys)
  }

  class InventoryStream {
    const write: Writer
    var tasks: Rows
    var taskEvents: Rows
    var quotaPolicies: Rows
    var keyGenerations: Rows
    var written: seq<Entry>

    constructor (write: Writer)
      ensures Contents() == (Shared(map[], map[], map[], map[]), []) && this.write == write
    {
      this.write := write;
      tasks, taskEvents, quotaPolicies, keyGenerations, written := map[], map[], map[], map[], [];
    }

    ghost function Contents(): (Shared, seq<Entry>)
      reads this
    {
      (Shared(tasks, taskEvents, quotaPolicies, keyGenerations), written)
    }

    method Push(entry: Value) returns (ok: bool)
      modifies this
      ensures var after := Normalize(write, old(Contents()).0, entry);
              && (ok <==> after.Some?)
              && (ok ==> Contents() == (after.value.0, old(written) + [after.value.1]))
    {
      if !Complete(entry) {
        return false;
      }
      var fields := entry.fields;
      var task := Share(write, tasks, fields[Task], TASK_FIELDS);
      if task.None? {
        return false;
      }
      tasks := task.value.0;
      var e := fields[Task := Null][TaskKey := Text(task.value.1)][TaskEvents := Null];

      var events, keys, i := fields[TaskEvents].items, [], 0;
      while i < |events|
        invariant 0 <= i <= |events|
        invariant tasks == task.value.0 && quotaPolicies == old(quotaPolicies) && keyGenerations == old(keyGenerations)
        invariant written == old(written)
        invariant ShareEvents(write, old(taskEvents), events[..i]) == Some((taskEvents, keys))
      {
        var shared := Share(write, taskEvents, events[i], EVENT_FIELDS);
        assert events[..i + 1][..i] == events[..i];
        if shared.None? {
          EventsFail(write, old(taskEvents), events, i + 1);
          return false;
        }
        taskEvents, keys := shared.value.0, keys + [shared.value.1];
        i := i + 1;
      }
      assert events[..i] == events;
      e := e[TaskEventKeys := List(Keys(keys))][KeyGenerationMetadata := Null];

      var generation := Share(write, keyGenerations, fields[KeyGenerationMetadata], GENERATION_FIELDS);
      if generation.None? {
        return false;
      }
      keyGenerations := generation.value.0;
      e := e[KeyGenerationKey := Text(generation.value.1)][QuotaPolicy := Null];

      if !fields[QuotaPolicy].Null? {
        var quota := Share(write, quotaPolicies, fields[QuotaPolicy], QUOTA_FIELDS);
        if quota.None? {
          return false;
        }
        quotaPolicies := quota.value.0;
        e := e[QuotaPolicyKey := Text(quota.value.1)];
      }
      written := written + [e];
      return true;
    }

    method Finish() returns (inv: Inventory)
      ensures inv.entries == written
      ensures Lists(inv.tasks, tasks) && Lists(inv.events, taskEvents) && Lists(inv.quotas, quotaPolicies)
      ensures Lists(inv.generations, keyGenerations)
    {
      var ts := ListOut(tasks);
      var es := ListOut(taskEvents);
      var qs := ListOut(quotaPolicies);
      var gs := ListOut(keyGenerations);
      return Inventory(written, ts, es, qs, gs);
    }
  }

  lemma {:induction false} EventsFail(write: Writer, rows: Rows, events: seq<Value>, n: nat)
    requires n <= |events| && ShareEvents(write, rows, events[..n]).None?
    ensures ShareEvents(write, rows, events).None?
    decreases |events|
  {
    if n < |events| {
      var m := |events| - 1;
      assert events[..m][..n] == events[..n];
      EventsFail(write, rows, events[..m], n);
    } else {
      assert events[..n] == events;
    }
  }

  method ListOut(rows: Rows) returns (list: seq<Value>)
    ensures Lists(list, rows)
  {
    list := [];
    var keys: seq<Key> := [];
    var rest := rows.Keys;
    while rest != {}
      invariant rest <= rows.Keys && |keys| == |list|
      invariant forall i | 0 <= i < |list| :: keys[i] in rows && rows[keys[i]] == list[i] && keys[i] !in rest
      invariant forall i, j | 0 <= i < j < |keys| :: keys[i] != keys[j]
      invariant forall k | k in rows :: k in rest || k in keys
      decreases |rest|
    {
      var k :| k in rest;
      list, keys, rest := list + [rows[k]], keys + [k], rest - {k};
    }
    assert ListedBy(list, rows, keys);
  }
}
