/**
 The in-memory artifact catalog: its entries, the object files behind them, and every section of
 code that runs under the catalog lock, as a function from the state before to the state after.

 `gc` is four such sections, because it drops the lock between marking an entry, looking for other
 entries that share its object, unlinking the object, and removing the entry.
 */
module Catalog {
  import opened Options
  import opened IdealCrypto

  const I64_MAX: int := 0x7FFF_FFFF_FFFF_FFFF
  const U64_MAX: int := 0xFFFF_FFFF_FFFF_FFFF

  datatype Path = Path(shard: string, name: string)
  datatype Token = Token(secret: string)
  datatype Key = Key(tenant: string, artifact: string)

  datatype Classification = Public | Internal | Confidential | Secret {
    function Rank(): nat {
      match this case Public => 0 case Internal => 1 case Confidential => 2 case Secret => 3
    }
  }

  // `descriptive` stands for the manifest fields that only describe the artifact (name, media type,
  // description, remaining producer fields, chunk list).
  datatype Manifest = Manifest(
    artifactId: string, tenant: string, owner: string, task: string,
    classification: Classification, domain: string, generation: string,
    derivedFrom: seq<string>, retainUntil: int,
    contentDigest: Digest, length: nat, descriptive: string)

  datatype Aad = Aad(
    tenant: string, owner: string, domain: string, classification: Classification,
    contentDigest: Digest, length: nat, generation: string)

  datatype StoredObject = StoredObject(
    path: Path, nonce: Nonce, digest: StoredDigest<Aad>, length: nat, generation: string)

  datatype Entry = Entry(
    manifest: Manifest, blob: StoredObject, referenceLive: bool, tombstoned: bool,
    holds: set<string>, leases: map<Token, int>, fence: nat)

  datatype State = State(entries: map<Key, Entry>, files: map<Path, Ciphertext<Aad>>)

  datatype Error = Denied | Conflict | Invalid | Unavailable | Integrity

  datatype Decision = KeptLive | KeptHeld | Deleted

  datatype Reply =
    | Done
    | Granted(token: Token)
    | Retention(decision: Decision)
    | Plaintext(bytes: Bytes)
    | Failed(error: Error)

  // How the blob store's file steps went. A failure after the link or unlink still reports an error.
  datatype Io = Succeeds | FailsBefore | FailsAfter

  function KeyOf(m: Manifest): Key { Key(m.tenant, m.artifactId) }

  function AadOf(m: Manifest): Aad {
    Aad(m.tenant, m.owner, m.domain, m.classification, m.contentDigest, m.length, m.generation)
  }

  // The manifest digest covers every field but the key generation.
  predicate SameManifestDigest(a: Manifest, b: Manifest) {
    a.(generation := "") == b.(generation := "")
  }

  predicate VerifyPlaintext(m: Manifest, bytes: Bytes) {
    |bytes| == m.length && Digest(bytes) == m.contentDigest
  }

  predicate Live(s: State, k: Key) { k in s.entries && !s.entries[k].tombstoned }

  predicate Names(s: State, k: Key, p: Path) { k in s.entries && s.entries[k].blob.path == p }

  predicate Shareable(e: Entry, m: Manifest) {
    && !e.tombstoned
    && e.manifest.tenant == m.tenant && e.manifest.owner == m.owner
    && e.manifest.contentDigest == m.contentDigest
    && e.manifest.classification == m.classification
    && e.manifest.domain == m.domain && e.manifest.generation == m.generation
  }

  predicate ParentsAdmit(s: State, m: Manifest) {
    forall i | 0 <= i < |m.derivedFrom| :: ParentAdmits(s, m, m.derivedFrom[i])
  }

  predicate ParentAdmits(s: State, m: Manifest, parent: string) {
    var k := Key(m.tenant, parent);
    && Live(s, k)
    && s.entries[k].manifest.classification.Rank() <= m.classification.Rank()
    && s.entries[k].manifest.domain == m.domain
  }

  function Fresh(m: Manifest, blob: StoredObject): Entry {
    Entry(m, blob, true, false, {}, map[], 0)
  }

  function Seal(m: Manifest, bytes: Bytes, nonce: Nonce): Ciphertext<Aad> {
    Sealed(m.generation, nonce, AadOf(m), bytes)
  }

  function StoredAs(m: Manifest, bytes: Bytes, path: Path, nonce: Nonce): StoredObject {
    var c := Seal(m, bytes, nonce);
    StoredObject(path, nonce, StoredDigest(c), StoredLength(c), m.generation)
  }

  /** What a publication may draw on besides the catalog: the entry found to share with, if any, and
      for a new object its random path and nonce, the byte limit, the key and the file outcome. */
  datatype Supply = Supply(donor: Option<Key>, path: Path, nonce: Nonce, maxBytes: nat, keyAvailable: bool, io: Io)

  predicate DonorFound(s: State, m: Manifest, donor: Option<Key>) {
    match donor
    case Some(k) => k in s.entries && Shareable(s.entries[k], m)
    case None => forall k | k in s.entries :: !Shareable(s.entries[k], m)
  }

  function Publish(s: State, m: Manifest, bytes: Bytes, supply: Supply): (State, Reply)
    requires DonorFound(s, m, supply.donor)
  {
    var k := KeyOf(m);
    if !VerifyPlaintext(m, bytes) then (s, Failed(Integrity))
    else if k in s.entries then
      (s, if SameManifestDigest(s.entries[k].manifest, m) then Done else Failed(Conflict))
    else if !ParentsAdmit(s, m) then (s, Failed(Denied))
    else if supply.donor.Some? then
      (s.(entries := s.entries[k := Fresh(m, s.entries[supply.donor.value].blob)]), Done)
    else Store(s, m, bytes, supply)
  }

  // Stage, then link the staged file under its final name.
  function Store(s: State, m: Manifest, bytes: Bytes, supply: Supply): (State, Reply) {
    if |bytes| > supply.maxBytes then (s, Failed(Invalid))
    else if !supply.keyAvailable || supply.io.FailsBefore? then (s, Failed(Unavailable))
    else
      var linked := s.(files := s.files[supply.path := Seal(m, bytes, supply.nonce)]);
      if supply.io.FailsAfter? then (linked, Failed(Unavailable))
      else
        (linked.(entries := s.entries[KeyOf(m) := Fresh(m, StoredAs(m, bytes, supply.path, supply.nonce))]), Done)
  }

  predicate Authorized(s: State, k: Key, owner: string, task: string) {
    && Live(s, k) && s.entries[k].referenceLive
    && s.entries[k].manifest.owner == owner && s.entries[k].manifest.task == task
  }

  function AcquireLease(s: State, k: Key, owner: string, task: string, now: int, ttl: int,
                        token: Token): (State, Reply) {
    if ttl <= 0 then (s, Failed(Invalid))
    else if !Authorized(s, k, owner, task) then (s, Failed(Denied))
    else if now + ttl > I64_MAX then (s, Failed(Invalid))
    else
      var e := s.entries[k];
      (s.(entries := s.entries[k := e.(leases := e.leases[token := now + ttl])]), Granted(token))
  }

  // The entry the search stops at: some entry holding the token, or none.
  predicate HolderFound(s: State, token: Token, holder: Option<Key>) {
    match holder
    case Some(k) => k in s.entries && token in s.entries[k].leases
    case None => forall k | k in s.entries :: token !in s.entries[k].leases
  }

  function ReleaseLease(s: State, token: Token, holder: Option<Key>): (State, Reply)
    requires HolderFound(s, token, holder)
  {
    if holder.None? then (s, Failed(Denied))
    else
      var e := s.entries[holder.value];
      (s.(entries := s.entries[holder.value := e.(leases := e.leases - {token})]), Done)
  }

  function PlaceHold(s: State, k: Key, hold: string, wellFormed: bool): (State, Reply) {
    if !wellFormed then (s, Failed(Invalid))
    else if k !in s.entries then (s, Failed(Denied))
    else
      var e := s.entries[k];
      (s.(entries := s.entries[k := e.(holds := e.holds + {hold})]), Done)
  }

  function DropHold(s: State, k: Key, hold: string): (State, Reply) {
    if k !in s.entries || hold !in s.entries[k].holds then (s, Failed(Denied))
    else
      var e := s.entries[k];
      (s.(entries := s.entries[k := e.(holds := e.holds - {hold})]), Done)
  }

  function ReleaseReference(s: State, k: Key, task: string): (State, Reply) {
    if k !in s.entries || s.entries[k].manifest.task != task then (s, Failed(Denied))
    else (s.(entries := s.entries[k := s.entries[k].(referenceLive := false)]), Done)
  }

  function Unexpired(leases: map<Token, int>, now: int): map<Token, int> {
    map t | t in leases && leases[t] > now :: leases[t]
  }

  predicate Collectable(e: Entry, now: int) {
    e.holds == {} && !e.referenceLive && Unexpired(e.leases, now) == map[] && now >= e.manifest.retainUntil
  }

  // `Done` means the collector goes on to the share check.
  function GcVerdict(e: Entry, now: int): Reply {
    if e.holds != {} then Retention(KeptHeld)
    else if !Collectable(e, now) then Retention(KeptLive)
    else if e.fence == U64_MAX then Failed(Unavailable)
    else Done
  }

  // The tombstone is set before the fence is counted up, so it stays when the fence overflows.
  function GcMarked(e: Entry, now: int): Entry {
    var verdict := GcVerdict(e, now);
    e.(leases := Unexpired(e.leases, now),
       tombstoned := e.tombstoned || !verdict.Retention?,
       fence := if verdict.Done? then e.fence + 1 else e.fence)
  }

  /** First locked section of gc. */
  function GcMark(s: State, k: Key, now: int, batch: int): (State, Reply) {
    if !(1 <= batch <= 1000) then (s, Failed(Invalid))
    else if k !in s.entries then (s, Failed(Denied))
    else (s.(entries := s.entries[k := GcMarked(s.entries[k], now)]), GcVerdict(s.entries[k], now))
  }

  /** Second locked section: does another, non-tombstoned entry name the same path? */
  predicate GcShared(s: State, k: Key, p: Path) {
    exists other | other in s.entries :: other != k && Live(s, other) && Names(s, other, p)
  }

  // Not under the lock: the unlink itself. A missing file counts as unlinked.
  function GcUnlink(s: State, p: Path, io: Io): (State, Reply) {
    if io.FailsBefore? then (s, Failed(Unavailable))
    else (s.(files := s.files - {p}), if io.Succeeds? then Done else Failed(Unavailable))
  }

  /** Last locked section: remove the entry this collector marked. */
  function GcRemove(s: State, k: Key, fence: nat): (State, Reply) {
    if k !in s.entries || !s.entries[k].tombstoned || s.entries[k].fence != fence then (s, Failed(Conflict))
    else (s.(entries := s.entries - {k}), Retention(Deleted))
  }

  // The unlocked half of resolve, on the manifest and object copied out under the lock.
  function ReadVerified(s: State, m: Manifest, o: StoredObject, keyAvailable: bool): Reply {
    if o.generation != m.generation then Failed(Integrity)
    else if o.path !in s.files then Failed(Unavailable)
    else
      var c := s.files[o.path];
      if StoredLength(c) != o.length || StoredDigest(c) != o.digest then Failed(Integrity)
      else if !keyAvailable then Failed(Unavailable)
      else
        match Open(o.generation, o.nonce, AadOf(m), c)
        case None => Failed(Integrity)
        case Some(bytes) => if VerifyPlaintext(m, bytes) then Plaintext(bytes) else Failed(Integrity)
  }

  function PhysicalObjectCount(s: State): nat { |NamedPaths(s)| }

  function NamedPaths(s: State): set<Path> { set k | k in s.entries :: s.entries[k].blob.path }
}
