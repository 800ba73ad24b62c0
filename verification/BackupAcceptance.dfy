/** Which lists of entries a backup accepts, told by the entries alone. */
module BackupAcceptance {
  import opened Options
  import opened Backup

  datatype Kind = TaskRow | EventRow | QuotaRow | GenerationRow

  // The rows of an entry, in the order in which they are filed.
  function RowsOf(kind: Kind, e: Value): seq<Value>
    requires Complete(e)
  {
    match kind
    case TaskRow => [e.fields[Task]]
    case EventRow => e.fields[TaskEvents].items
    case QuotaRow => if e.fields[QuotaPolicy].Null? then [] else [e.fields[QuotaPolicy]]
    case GenerationRow => [e.fields[KeyGenerationMetadata]]
  }

  // What a row is known by.
  predicate Named(kind: Kind, v: Value) {
    && v.Object? && TenantScope in v.fields
    && match kind
       case TaskRow => TaskId in v.fields
       case EventRow => TaskId in v.fields && EventSeq in v.fields
       case QuotaRow => PolicyId in v.fields && PolicyRevision in v.fields
       case GenerationRow => EncryptionDomain in v.fields && KeyGeneration in v.fields
  }

  function NameText(write: Writer, kind: Kind, v: Value): Key
    requires Named(kind, v)
  {
    var f := v.fields;
    match kind
    case TaskRow => write([f[TenantScope], f[TaskId]])
    case EventRow => write([f[TenantScope], f[TaskId], f[EventSeq]])
    case QuotaRow => write([f[TenantScope], f[PolicyId], f[PolicyRevision]])
    case GenerationRow => write([f[TenantScope], f[EncryptionDomain], f[KeyGeneration]])
  }

  function FieldsOf(kind: Kind): seq<Field> {
    match kind
    case TaskRow => TASK_FIELDS
    case EventRow => EVENT_FIELDS
    case QuotaRow => QUOTA_FIELDS
    case GenerationRow => GENERATION_FIELDS
  }

  lemma RowKeyIsName(write: Writer, kind: Kind, v: Value)
    ensures RowKey(write, v, FieldsOf(kind)) == if Named(kind, v) then Some(NameText(write, kind, v)) else None
  {
    var fields := FieldsOf(kind);
    assert HasFields(v, fields) <==> Named(kind, v) by {
      if HasFields(v, fields) {
        assert fields[0] in v.fields && fields[1] in v.fields && fields[|fields| - 1] in v.fields;
      }
    }
    if Named(kind, v) {
      var values := seq(|fields|, i requires 0 <= i < |fields| => v.fields[fields[i]]);
      if |fields| == 2 {
        assert values == [v.fields[fields[0]], v.fields[fields[1]]];
      } else {
        assert values == [v.fields[fields[0]], v.fields[fields[1]], v.fields[fields[2]]];
      }
    }
  }

  // ----- A list of rows -----

  predicate SameRow(write: Writer, kind: Kind, a: Value, b: Value) {
    Named(kind, a) && Named(kind, b) && NameText(write, kind, a) == NameText(write, kind, b) ==> a == b
  }

  // Every row has its name fields, and rows with one name text are one row.
  predicate Coherent(write: Writer, kind: Kind, list: seq<Value>) {
    && (forall v | v in list :: Named(kind, v))
    && (forall a, b | a in list && b in list :: SameRow(write, kind, a, b))
  }

  // The row is on file under its name text.
  predicate IsFiled(write: Writer, kind: Kind, rows: Rows, v: Value) {
    Named(kind, v) && NameText(write, kind, v) in rows && rows[NameText(write, kind, v)] == v
  }

  // Some row of the list has this name text.
  ghost predicate Comes(write: Writer, kind: Kind, list: seq<Value>, k: Key) {
    exists v :: v in list && Named(kind, v) && NameText(write, kind, v) == k
  }

  // The rows on file are those of the list, under their name texts.
  ghost predicate OnFile(write: Writer, kind: Kind, rows: Rows, list: seq<Value>) {
    && (forall v | v in list :: IsFiled(write, kind, rows, v))
    && (forall k | k in rows :: Comes(write, kind, list, k))
  }

  lemma OnFileIsCoherent(write: Writer, kind: Kind, rows: Rows, list: seq<Value>)
    requires OnFile(write, kind, rows, list)
    ensures Coherent(write, kind, list)
  {
    forall a, b | a in list && b in list ensures SameRow(write, kind, a, b) {
      assert IsFiled(write, kind, rows, a) && IsFiled(write, kind, rows, b);
    }
    forall v | v in list ensures Named(kind, v) { assert IsFiled(write, kind, rows, v); }
  }

  lemma CoherentFront(write: Writer, kind: Kind, list: seq<Value>, more: seq<Value>)
    requires Coherent(write, kind, list + more)
    ensures Coherent(write, kind, list)
  {
    forall v | v in list ensures v in list + more {}
  }

  // One more row is on file.
  lemma OneMoreOnFile(write: Writer, kind: Kind, rows: Rows, list: seq<Value>, v: Value, next: Rows)
    requires OnFile(write, kind, rows, list) && IsFiled(write, kind, next, v)
    requires forall k | k in rows :: k in next && next[k] == rows[k]
    requires forall k | k in next :: k in rows || k == NameText(write, kind, v)
    ensures OnFile(write, kind, next, list + [v])
  {
    var more := list + [v];
    forall x | x in more ensures IsFiled(write, kind, next, x) {
      if x in list { assert IsFiled(write, kind, rows, x); }
    }
    forall k | k in next ensures Comes(write, kind, more, k) {
      if k in rows {
        assert Comes(write, kind, list, k);
        var x :| x in list && Named(kind, x) && NameText(write, kind, x) == k;
        assert x in more;
      } else {
        assert v in more;
      }
    }
  }

  lemma ClashIsIncoherent(write: Writer, kind: Kind, rows: Rows, list: seq<Value>, v: Value)
    requires OnFile(write, kind, rows, list)
    requires Named(kind, v) && NameText(write, kind, v) in rows && rows[NameText(write, kind, v)] != v
    ensures !Coherent(write, kind, list + [v])
  {
    assert Comes(write, kind, list, NameText(write, kind, v));
    var u :| u in list && Named(kind, u) && NameText(write, kind, u) == NameText(write, kind, v);
    assert IsFiled(write, kind, rows, u);
    assert u in list + [v] && v in list + [v] && !SameRow(write, kind, u, v);
  }

  lemma ShareIff(write: Writer, kind: Kind, rows: Rows, list: seq<Value>, v: Value)
    requires OnFile(write, kind, rows, list)
    ensures Share(write, rows, v, FieldsOf(kind)).Some? <==> Coherent(write, kind, list + [v])
    ensures Share(write, rows, v, FieldsOf(kind)).Some? ==>
              OnFile(write, kind, Share(write, rows, v, FieldsOf(kind)).value.0, list + [v])
  {
    RowKeyIsName(write, kind, v);
    assert v in list + [v];
    if Share(write, rows, v, FieldsOf(kind)).Some? {
      var next := Share(write, rows, v, FieldsOf(kind)).value.0;
      OneMoreOnFile(write, kind, rows, list, v, next);
      OnFileIsCoherent(write, kind, next, list + [v]);
    } else if Named(kind, v) {
      ClashIsIncoherent(write, kind, rows, list, v);
    }
  }

  lemma {:induction false} ShareEventsIff(write: Writer, rows: Rows, list: seq<Value>, events: seq<Value>)
    requires OnFile(write, EventRow, rows, list)
    ensures ShareEvents(write, rows, events).Some? <==> Coherent(write, EventRow, list + events)
    ensures ShareEvents(write, rows, events).Some? ==>
              OnFile(write, EventRow, ShareEvents(write, rows, events).value.0, list + events)
    decreases |events|
  {
    if events == [] {
      assert list + events == list;
      OnFileIsCoherent(write, EventRow, rows, list);
    } else {
      var n := |events| - 1;
      var front, v := list + events[..n], events[n];
      assert list + events == front + [v];
      ShareEventsIff(write, rows, list, events[..n]);
      if ShareEvents(write, rows, events[..n]).Some? {
        ShareIff(write, EventRow, ShareEvents(write, rows, events[..n]).value.0, front, v);
      } else if Coherent(write, EventRow, front + [v]) {
        CoherentFront(write, EventRow, front, [v]);
      }
    }
  }

  // ----- Entries -----

  // All rows of a kind, entry by entry.
  function AllRows(kind: Kind, entries: seq<Value>): seq<Value>
    requires forall i | 0 <= i < |entries| :: Complete(entries[i])
  {
    if entries == [] then []
    else AllRows(kind, entries[..|entries| - 1]) + RowsOf(kind, entries[|entries| - 1])
  }

  function RowsFiled(s: Shared, kind: Kind): Rows {
    match kind
    case TaskRow => s.tasks
    case EventRow => s.events
    case QuotaRow => s.quotas
    case GenerationRow => s.generations
  }

  ghost predicate AllOnFile(write: Writer, s: Shared, entries: seq<Value>)
    requires forall i | 0 <= i < |entries| :: Complete(entries[i])
  {
    forall kind :: OnFile(write, kind, RowsFiled(s, kind), AllRows(kind, entries))
  }

  // The new rows of every kind agree with those on file.
  ghost predicate Agrees(write: Writer, entries: seq<Value>, e: Value)
    requires (forall i | 0 <= i < |entries| :: Complete(entries[i])) && Complete(e)
  {
    forall kind :: Coherent(write, kind, AllRows(kind, entries) + RowsOf(kind, e))
  }

  lemma ShareQuotaIff(write: Writer, rows: Rows, list: seq<Value>, quota: Value)
    requires OnFile(write, QuotaRow, rows, list)
    ensures var more := list + if quota.Null? then [] else [quota];
            && (ShareQuota(write, rows, quota).Some? <==> Coherent(write, QuotaRow, more))
            && (ShareQuota(write, rows, quota).Some? ==>
                OnFile(write, QuotaRow, ShareQuota(write, rows, quota).value.0, more))
  {
    if quota.Null? {
      assert list + [] == list;
      OnFileIsCoherent(write, QuotaRow, rows, list);
    } else {
      ShareIff(write, QuotaRow, rows, list, quota);
    }
  }

  // What a push makes of the rows of one kind.
  function Filing(write: Writer, s: Shared, e: Value, kind: Kind): Option<Rows>
    requires Complete(e)
  {
    match kind
    case TaskRow => First(Share(write, s.tasks, e.fields[Task], TASK_FIELDS))
    case EventRow => First(ShareEvents(write, s.events, e.fields[TaskEvents].items))
    case QuotaRow => First(ShareQuota(write, s.quotas, e.fields[QuotaPolicy]))
    case GenerationRow => First(Share(write, s.generations, e.fields[KeyGenerationMetadata], GENERATION_FIELDS))
  }

  function First<T>(x: Option<(Rows, T)>): Option<Rows> { if x.Some? then Some(x.value.0) else None }

  lemma NormalizeByKind(write: Writer, s: Shared, e: Value)
    requires Complete(e)
    ensures Normalize(write, s, e).Some? <==> forall kind :: Filing(write, s, e, kind).Some?
    ensures Normalize(write, s, e).Some? ==>
              forall kind :: Some(RowsFiled(Normalize(write, s, e).value.0, kind)) == Filing(write, s, e, kind)
  {
    if forall kind :: Filing(write, s, e, kind).Some? {
      assert Filing(write, s, e, TaskRow).Some? && Filing(write, s, e, EventRow).Some?;
      assert Filing(write, s, e, QuotaRow).Some? && Filing(write, s, e, GenerationRow).Some?;
    }
  }

  lemma FilingIff(write: Writer, s: Shared, list: seq<Value>, e: Value, kind: Kind)
    requires OnFile(write, kind, RowsFiled(s, kind), list) && Complete(e)
    ensures Filing(write, s, e, kind).Some? <==> Coherent(write, kind, list + RowsOf(kind, e))
    ensures Filing(write, s, e, kind).Some? ==>
              OnFile(write, kind, Filing(write, s, e, kind).value, list + RowsOf(kind, e))
  {
    match kind
    case TaskRow => ShareIff(write, kind, s.tasks, list, e.fields[Task]);
    case EventRow => ShareEventsIff(write, s.events, list, e.fields[TaskEvents].items);
    case QuotaRow => ShareQuotaIff(write, s.quotas, list, e.fields[QuotaPolicy]);
    case GenerationRow => ShareIff(write, kind, s.generations, list, e.fields[KeyGenerationMetadata]);
  }

  /** A push is accepted if and only if the entry is complete and its rows agree with all rows before. */
  lemma PushAcceptsIff(write: Writer, s: Shared, entries: seq<Value>, e: Value)
    requires (forall i | 0 <= i < |entries| :: Complete(entries[i])) && AllOnFile(write, s, entries)
    ensures Normalize(write, s, e).Some? <==> Complete(e) && Agrees(write, entries, e)
    ensures Normalize(write, s, e).Some? ==>
              forall kind :: OnFile(write, kind, RowsFiled(Normalize(write, s, e).value.0, kind),
                                    AllRows(kind, entries) + RowsOf(kind, e))
  {
    if Complete(e) {
      NormalizeByKind(write, s, e);
      forall kind
        ensures Filing(write, s, e, kind).Some? <==> Coherent(write, kind, AllRows(kind, entries) + RowsOf(kind, e))
        ensures Filing(write, s, e, kind).Some? ==>
                  OnFile(write, kind, Filing(write, s, e, kind).value, AllRows(kind, entries) + RowsOf(kind, e))
      {
        assert OnFile(write, kind, RowsFiled(s, kind), AllRows(kind, entries));
        FilingIff(write, s, AllRows(kind, entries), e, kind);
      }
    }
  }

  /** Every entry is complete, every row has its name fields, and any two rows of a kind with one name text are
      the same row. */
  ghost predicate Acceptable(write: Writer, entries: seq<Value>) {
    && (forall i | 0 <= i < |entries| :: Complete(entries[i]))
    && forall kind :: Coherent(write, kind, AllRows(kind, entries))
  }

  lemma AcceptableFront(write: Writer, entries: seq<Value>)
    requires entries != [] && Acceptable(write, entries)
    ensures Acceptable(write, entries[..|entries| - 1])
  {
    var n := |entries| - 1;
    forall kind ensures Coherent(write, kind, AllRows(kind, entries[..n])) {
      assert Coherent(write, kind, AllRows(kind, entries));
      CoherentFront(write, kind, AllRows(kind, entries[..n]), RowsOf(kind, entries[n]));
    }
  }

  /** A backup accepts a list of entries if and only if it is acceptable, for any serialisation of names. */
  lemma {:induction false} AcceptedIff(write: Writer, entries: seq<Value>)
    ensures NormalizeAll(write, entries).Some? <==> Acceptable(write, entries)
    ensures NormalizeAll(write, entries).Some? ==>
              Acceptable(write, entries) && AllOnFile(write, NormalizeAll(write, entries).value.0, entries)
    decreases |entries|
  {
    if entries != [] {
      var n := |entries| - 1;
      var front, e := entries[..n], entries[n];
      AcceptedIff(write, front);
      if NormalizeAll(write, front).Some? {
        PushAcceptsIff(write, NormalizeAll(write, front).value.0, front, e);
        AgreesIff(write, front, e, entries);
      } else if Acceptable(write, entries) {
        AcceptableFront(write, entries);
      }
    }
  }

  lemma AgreesIff(write: Writer, front: seq<Value>, e: Value, entries: seq<Value>)
    requires entries == front + [e] && forall i | 0 <= i < |front| :: Complete(front[i])
    ensures Acceptable(write, entries) <==> Complete(e) && Agrees(write, front, e)
    ensures Complete(e) ==> forall kind :: AllRows(kind, entries) == AllRows(kind, front) + RowsOf(kind, e)
  {
    assert entries[..|entries| - 1] == front && entries[|entries| - 1] == e;
    if Complete(e) {
      forall kind ensures AllRows(kind, entries) == AllRows(kind, front) + RowsOf(kind, e) {}
    }
  }
}
