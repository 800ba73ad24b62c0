/**
 The tables that a migrated artifact is registered in: content objects, manifests and upload intents.

 Rows are inserted where nothing is in the way, then read back and compared. Object and upload names that
 are digests are given by what was digested; the locator of a staged file is random and therefore new.
 */
module Registration {
  import opened Options
  import opened IdealCrypto
  import opened InlineArtifacts
  import opened InlineRecords

  datatype ObjectId =
    MigratedObject(owner: string, generation: string, content: Digest, id: string) | OtherObject(name: string)

  datatype UploadId = MigratedUpload(task: string, id: string) | OtherUpload(name: string)

  datatype ObjectKey = ObjectKey(tenant: string, blob: ObjectId)
  datatype ArtifactKey = ArtifactKey(tenant: string, id: string)
  datatype UploadKey = UploadKey(tenant: string, upload: UploadId)

  // A message or dispatch that the source row does not name gets a name derived from that of its task.
  datatype Producer = Producer(owner: string, task: string, context: string, message: Option<string>,
                               dispatch: Option<string>)

  datatype Object = Object(plaintext: Bytes, locator: nat)

  datatype Manifest = Manifest(producer: Producer, name: string, description: Option<string>, mediaType: string,
                               content: Digest, blob: ObjectId)

  datatype Upload = Upload(id: string, blob: ObjectId, locator: nat)

  datatype Tables = Tables(objects: map<ObjectKey, Object>, manifests: map<ArtifactKey, Manifest>,
                           uploads: map<UploadKey, Upload>)

  datatype Entry = Entry(tenant: string, producer: Producer, record: Record, generation: string, locator: nat)

  function ObjectOf(r: Entry): ObjectId {
    MigratedObject(r.producer.owner, r.generation, Digest(r.record.bytes), r.record.id)
  }

  function ObjectKeyOf(r: Entry): ObjectKey { ObjectKey(r.tenant, ObjectOf(r)) }

  function ArtifactKeyOf(r: Entry): ArtifactKey { ArtifactKey(r.tenant, r.record.id) }

  function UploadKeyOf(r: Entry): UploadKey { UploadKey(r.tenant, MigratedUpload(r.producer.task, r.record.id)) }

  function ManifestOf(r: Entry): Manifest {
    Manifest(r.producer, r.record.name, r.record.description, r.record.mediaType, Digest(r.record.bytes), ObjectOf(r))
  }

  function Insert<K, V>(rows: map<K, V>, k: K, v: V): map<K, V> { if k in rows then rows else rows[k := v] }

  // An upload of the tenant's artifact, under whatever name.
  predicate Uploading(t: Tables, k: ArtifactKey) {
    exists u | u in t.uploads :: u.tenant == k.tenant && t.uploads[u].id == k.id
  }

  function Register(t: Tables, r: Entry): Result<Tables> {
    var blob, upload := Object(r.record.bytes, r.locator), Upload(r.record.id, ObjectOf(r), r.locator);
    var objects := Insert(t.objects, ObjectKeyOf(r), blob);
    var manifests := Insert(t.manifests, ArtifactKeyOf(r), ManifestOf(r));
    var uploads := if Uploading(t, ArtifactKeyOf(r)) then t.uploads else Insert(t.uploads, UploadKeyOf(r), upload);
    if objects[ObjectKeyOf(r)] != blob || manifests[ArtifactKeyOf(r)] != ManifestOf(r) then Err
    else if UploadKeyOf(r) !in uploads || uploads[UploadKeyOf(r)] != upload then Err
    else Ok(Tables(objects, manifests, uploads))
  }

  // ----- When it succeeds -----

  // A manifest's object is there, as the foreign key demands.
  ghost predicate Referential(t: Tables) {
    forall k | k in t.manifests :: ObjectKey(k.tenant, t.manifests[k].blob) in t.objects
  }

  ghost predicate Below(t: Tables, n: nat) {
    && (forall k | k in t.objects :: t.objects[k].locator < n)
    && (forall k | k in t.uploads :: t.uploads[k].locator < n)
  }

  // Nothing of the artifact is registered, by this migration or before it.
  predicate Vacant(t: Tables, r: Entry) {
    && ObjectKeyOf(r) !in t.objects && ArtifactKeyOf(r) !in t.manifests
    && UploadKeyOf(r) !in t.uploads && !Uploading(t, ArtifactKeyOf(r))
  }

  // Rows are added and none is changed.
  ghost predicate Grows(t: Tables, u: Tables) {
    && (forall k | k in t.objects :: k in u.objects && u.objects[k] == t.objects[k])
    && (forall k | k in t.manifests :: k in u.manifests && u.manifests[k] == t.manifests[k])
    && (forall k | k in t.uploads :: k in u.uploads && u.uploads[k] == t.uploads[k])
  }

  // An artifact of that producer is registered with this record, its bytes are in the store, and the upload they
  // came with names the same object and file.
  predicate Stored(t: Tables, tenant: string, producer: Producer, record: Record) {
    var k, upload := ArtifactKey(tenant, record.id), UploadKey(tenant, MigratedUpload(producer.task, record.id));
    && k in t.manifests && upload in t.uploads
    && var m := t.manifests[k];
       && m.producer == producer && m.name == record.name && m.description == record.description
       && m.mediaType == record.mediaType && m.content == Digest(record.bytes)
       && ObjectKey(tenant, m.blob) in t.objects && t.objects[ObjectKey(tenant, m.blob)].plaintext == record.bytes
       && t.uploads[upload] == Upload(record.id, m.blob, t.objects[ObjectKey(tenant, m.blob)].locator)
  }

  predicate SameSlot(r: Entry, s: Entry) { ArtifactKeyOf(r) == ArtifactKeyOf(s) }

  /** With a new locator, registering succeeds if and only if nothing of the artifact is registered yet. */
  lemma RegisterIff(t: Tables, r: Entry)
    requires Referential(t) && Below(t, r.locator)
    ensures Register(t, r).Ok? <==> Vacant(t, r)
  {
  }

  /** Two artifacts share a content object if and only if tenant, owner, key generation, content and id agree. */
  lemma SameObjectIff(r: Entry, s: Entry)
    ensures ObjectKeyOf(r) == ObjectKeyOf(s) <==>
            && r.tenant == s.tenant && r.producer.owner == s.producer.owner && r.generation == s.generation
            && r.record.bytes == s.record.bytes && r.record.id == s.record.id
  {
  }

  // What a registration adds.
  ghost predicate Added(t: Tables, r: Entry, u: Tables) {
    && Grows(t, u) && Referential(u) && Below(u, r.locator + 1)
    && u.manifests.Keys == t.manifests.Keys + {ArtifactKeyOf(r)} && Stored(u, r.tenant, r.producer, r.record)
  }

  lemma RegisterAdds(t: Tables, r: Entry)
    requires Referential(t) && Below(t, r.locator) && Vacant(t, r) && Register(t, r).Ok?
    ensures Added(t, r, Register(t, r).value)
  {
  }

  // What is still free afterwards.
  lemma RegisterTakes(t: Tables, r: Entry, s: Entry)
    requires Vacant(t, r) && Register(t, r).Ok?
    ensures Vacant(Register(t, r).value, s) <==> Vacant(t, s) && !SameSlot(r, s)
  {
    var u := Register(t, r).value;
    assert UploadKeyOf(r) in u.uploads && u.uploads[UploadKeyOf(r)].id == r.record.id;
    if Uploading(t, ArtifactKeyOf(s)) {
      var k :| k in t.uploads && k.tenant == s.tenant && t.uploads[k].id == s.record.id;
      assert k in u.uploads && u.uploads[k].id == s.record.id;
    }
    if Uploading(u, ArtifactKeyOf(s)) {
      var k :| k in u.uploads && k.tenant == s.tenant && u.uploads[k].id == s.record.id;
      assert k != UploadKeyOf(r) ==> k in t.uploads;
    }
  }

  // ----- A batch -----

  // The batch's files have new locators, in the order in which they were staged.
  ghost predicate Staged(batch: seq<Entry>, n: nat) { forall i | 0 <= i < |batch| :: batch[i].locator == n + i }

  ghost predicate Apart(batch: seq<Entry>) { forall i, j | 0 <= i < j < |batch| :: !SameSlot(batch[i], batch[j]) }

  ghost predicate Admits(t: Tables, batch: seq<Entry>) {
    Apart(batch) && forall i | 0 <= i < |batch| :: Vacant(t, batch[i])
  }

  ghost predicate TakenBy(batch: seq<Entry>, s: Entry) { exists i :: 0 <= i < |batch| && SameSlot(batch[i], s) }

  ghost predicate Frees(t: Tables, batch: seq<Entry>, u: Tables, s: Entry) {
    Vacant(u, s) <==> Vacant(t, s) && !TakenBy(batch, s)
  }

  function Slots(batch: seq<Entry>): set<ArtifactKey> { set i | 0 <= i < |batch| :: ArtifactKeyOf(batch[i]) }

  ghost predicate Registered(t: Tables, batch: seq<Entry>, n: nat, u: Tables) {
    && Grows(t, u) && Referential(u) && Below(u, n + |batch|)
    && u.manifests.Keys == t.manifests.Keys + Slots(batch)
    && (forall i | 0 <= i < |batch| :: Stored(u, batch[i].tenant, batch[i].producer, batch[i].record))
    && (forall s :: Frees(t, batch, u, s))
  }

  lemma OneMoreTaken(batch: seq<Entry>, r: Entry, s: Entry)
    ensures TakenBy(batch + [r], s) <==> TakenBy(batch, s) || SameSlot(r, s)
  {
    var more := batch + [r];
    if TakenBy(batch, s) { var i :| 0 <= i < |batch| && SameSlot(batch[i], s); assert SameSlot(more[i], s); }
    if SameSlot(r, s) { assert SameSlot(more[|batch|], s); }
  }

  lemma OneMoreSlot(batch: seq<Entry>, r: Entry)
    ensures Slots(batch + [r]) == Slots(batch) + {ArtifactKeyOf(r)}
  {
    var more := batch + [r];
    forall k | k in Slots(batch) ensures k in Slots(more) {
      var i :| 0 <= i < |batch| && k == ArtifactKeyOf(batch[i]);
      assert more[i] == batch[i];
    }
    assert more[|batch|] == r;
  }

  lemma OneMoreAdmitted(t: Tables, batch: seq<Entry>, r: Entry)
    ensures Admits(t, batch + [r]) <==> Admits(t, batch) && Vacant(t, r) && !TakenBy(batch, r)
  {
    var more := batch + [r];
    assert forall i | 0 <= i < |batch| :: more[i] == batch[i];
    if Admits(t, more) {
      forall i | 0 <= i < |batch| ensures !SameSlot(batch[i], r) { assert !SameSlot(more[i], more[|batch|]); }
      forall i, j | 0 <= i < j < |batch| ensures !SameSlot(batch[i], batch[j]) { assert !SameSlot(more[i], more[j]); }
      forall i | 0 <= i < |batch| ensures Vacant(t, batch[i]) { assert Vacant(t, more[i]); }
      assert Vacant(t, more[|batch|]);
    }
  }

  lemma StoredKept(t: Tables, u: Tables, tenant: string, producer: Producer, record: Record)
    requires Grows(t, u) && Stored(t, tenant, producer, record)
    ensures Stored(u, tenant, producer, record)
  {
  }

  ghost predicate Takes(u: Tables, r: Entry, v: Tables, s: Entry) { Vacant(v, s) <==> Vacant(u, s) && !SameSlot(r, s) }

  lemma OneMoreFrees(t: Tables, batch: seq<Entry>, u: Tables, r: Entry, v: Tables, s: Entry)
    requires Frees(t, batch, u, s) && Takes(u, r, v, s)
    ensures Frees(t, batch + [r], v, s)
  {
    OneMoreTaken(batch, r, s);
  }

  lemma OneMoreStored(t: Tables, batch: seq<Entry>, n: nat, u: Tables, r: Entry, v: Tables, i: nat)
    requires Registered(t, batch, n, u) && Added(u, r, v) && i <= |batch|
    ensures var e := (batch + [r])[i]; Stored(v, e.tenant, e.producer, e.record)
  {
    if i < |batch| { StoredKept(u, v, batch[i].tenant, batch[i].producer, batch[i].record); }
  }

  // What holds of the tables as a whole.
  lemma OneMoreGrows(t: Tables, batch: seq<Entry>, n: nat, u: Tables, r: Entry, v: Tables)
    requires Grows(t, u) && u.manifests.Keys == t.manifests.Keys + Slots(batch)
    requires r.locator == n + |batch| && Added(u, r, v)
    ensures Grows(t, v) && Below(v, n + |batch + [r]|)
    ensures v.manifests.Keys == t.manifests.Keys + Slots(batch + [r])
  {
    OneMoreSlot(batch, r);
  }

  lemma OneMore(t: Tables, batch: seq<Entry>, n: nat, u: Tables, r: Entry, v: Tables)
    requires Registered(t, batch, n, u) && r.locator == n + |batch| && Added(u, r, v) && forall s :: Takes(u, r, v, s)
    ensures Registered(t, batch + [r], n, v)
  {
    var more := batch + [r];
    OneMoreGrows(t, batch, n, u, r, v);
    forall i | 0 <= i < |more| ensures Stored(v, more[i].tenant, more[i].producer, more[i].record) {
      OneMoreStored(t, batch, n, u, r, v, i);
    }
    forall s ensures Frees(t, more, v, s) {
      assert Frees(t, batch, u, s) && Takes(u, r, v, s);
      OneMoreFrees(t, batch, u, r, v, s);
    }
  }

  lemma RegisterNext(t: Tables, batch: seq<Entry>, n: nat, u: Tables, r: Entry)
    requires Registered(t, batch, n, u) && Admits(t, batch) && r.locator == n + |batch|
    ensures Register(u, r).Ok? <==> Admits(t, batch + [r])
    ensures Register(u, r).Ok? ==> Registered(t, batch + [r], n, Register(u, r).value)
  {
    RegisterIff(u, r);
    OneMoreAdmitted(t, batch, r);
    assert Frees(t, batch, u, r);
    if Register(u, r).Ok? {
      RegisterAdds(u, r);
      forall s ensures Takes(u, r, Register(u, r).value, s) { RegisterTakes(u, r, s); }
      OneMore(t, batch, n, u, r, Register(u, r).value);
    }
  }

  lemma AdmitsPrefix(t: Tables, batch: seq<Entry>, i: nat)
    requires i <= |batch| && Admits(t, batch)
    ensures Admits(t, batch[..i])
  {
  }

  /** The registrations of one transaction: all succeed exactly when nothing of any of the artifacts is
      registered and no two of them share tenant and id, whatever their tasks. */
  method RegisterBatch(t: Tables, batch: seq<Entry>, ghost n: nat) returns (r: Result<Tables>)
    requires Referential(t) && Below(t, n) && Staged(batch, n)
    ensures r.Ok? <==> Admits(t, batch)
    ensures r.Ok? ==> Registered(t, batch, n, r.value)
  {
    var u, i := t, 0;
    while i < |batch|
      invariant 0 <= i <= |batch| && Registered(t, batch[..i], n, u) && Admits(t, batch[..i])
    {
      assert batch[..i + 1] == batch[..i] + [batch[i]];
      RegisterNext(t, batch[..i], n, u, batch[i]);
      var next := Register(u, batch[i]);
      if next.Err? {
        assert !Admits(t, batch) by { if Admits(t, batch) { AdmitsPrefix(t, batch, i + 1); } }
        return Err;
      }
      u, i := next.value, i + 1;
    }
    assert batch[..i] == batch;
    return Ok(u);
  }
}
