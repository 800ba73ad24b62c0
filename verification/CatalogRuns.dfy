/**
 Every interleaving of catalog calls.

 A world is the catalog and its files together with the collectors and readers that are between two
 of their sections, and three records of the past that no code reads: the bytes each entry was
 published with, the leases granted and not yet released, and the latest time a collector was given.
 A run is any list of labels whose side conditions hold when their turn comes: random names and
 tokens are new, and a collector takes its sections in order.
 */
module CatalogRuns {
  import opened Options
  import opened IdealCrypto
  import opened Catalog

  datatype Phase = Marked | Checked(shared: bool) | Unlinked

  datatype Collector = Collector(key: Key, blob: StoredObject, fence: nat, phase: Phase)

  datatype Reader = Reader(manifest: Manifest, blob: StoredObject, origin: Bytes)

  datatype Lease = Lease(key: Key, expiry: int)

  datatype Work = Work(collectors: map<nat, Collector>, readers: map<nat, Reader>)

  datatype Past = Past(paths: set<Path>, tokens: set<Token>, origin: map<Key, Bytes>, granted: map<Token, Lease>)

  datatype World = World(cat: State, work: Work, past: Past, gcClock: int)

  function Empty(clock: int): World {
    World(State(map[], map[]), Work(map[], map[]), Past({}, {}, map[], map[]), clock)
  }

  // Which entries name which objects, tombstones, fences, files, collectors and origins are as they were.
  ghost predicate Quiet(w: World, v: World) {
    && v.cat.entries.Keys == w.cat.entries.Keys
    && (forall k | k in w.cat.entries :: SameSlot(v.cat.entries[k], w.cat.entries[k]))
    && v.cat.files == w.cat.files && v.past.paths == w.past.paths && v.work.collectors == w.work.collectors
    && v.past.origin == w.past.origin
  }

  predicate SameSlot(a: Entry, b: Entry) {
    a.manifest == b.manifest && a.blob == b.blob && a.tombstoned == b.tombstoned && a.fence == b.fence
  }

  // ----- The steps -----

  function DoPublish(w: World, m: Manifest, bytes: Bytes, supply: Supply): World
    requires DonorFound(w.cat, m, supply.donor)
  {
    var cat := Publish(w.cat, m, bytes, supply).0;
    var isNew := KeyOf(m) !in w.cat.entries && KeyOf(m) in cat.entries;
    var origin := if isNew then w.past.origin[KeyOf(m) := bytes] else w.past.origin;
    w.(cat := cat, past := w.past.(paths := w.past.paths + {supply.path}, origin := origin))
  }

  function DoAcquire(w: World, k: Key, owner: string, task: string, now: int, ttl: int, token: Token): World {
    var (cat, reply) := AcquireLease(w.cat, k, owner, task, now, ttl, token);
    var granted := if reply.Granted? then w.past.granted[token := Lease(k, now + ttl)] else w.past.granted;
    w.(cat := cat, past := w.past.(tokens := w.past.tokens + {token}, granted := granted))
  }

  function DoRelease(w: World, token: Token, holder: Option<Key>): World
    requires HolderFound(w.cat, token, holder)
  {
    var (cat, reply) := ReleaseLease(w.cat, token, holder);
    w.(cat := cat, past := if reply.Done? then w.past.(granted := w.past.granted - {token}) else w.past)
  }

  function DoPlaceHold(w: World, k: Key, hold: string, wellFormed: bool): World {
    w.(cat := PlaceHold(w.cat, k, hold, wellFormed).0)
  }

  function DoDropHold(w: World, k: Key, hold: string): World {
    w.(cat := DropHold(w.cat, k, hold).0)
  }

  function DoReleaseReference(w: World, k: Key, task: string): World {
    w.(cat := ReleaseReference(w.cat, k, task).0)
  }

  function PutCollector(work: Work, id: nat, c: Collector): Work { work.(collectors := work.collectors[id := c]) }

  function DropCollector(work: Work, id: nat): Work { work.(collectors := work.collectors - {id}) }

  function DoMark(w: World, id: nat, k: Key, now: int, batch: int): World {
    var (cat, reply) := GcMark(w.cat, k, now, batch);
    World(cat,
          if reply.Done? && k in cat.entries
          then PutCollector(w.work, id, Collector(k, cat.entries[k].blob, cat.entries[k].fence, Marked)) else w.work,
          w.past, now)
  }

  function DoCheck(w: World, id: nat): World
    requires id in w.work.collectors
  {
    var c := w.work.collectors[id];
    w.(work := PutCollector(w.work, id, c.(phase := Checked(GcShared(w.cat, c.key, c.blob.path)))))
  }

  function DoUnlink(w: World, id: nat, io: Io): World
    requires id in w.work.collectors && w.work.collectors[id].phase.Checked?
  {
    var c := w.work.collectors[id];
    var (cat, reply) := if c.phase.shared then (w.cat, Done) else GcUnlink(w.cat, c.blob.path, io);
    var work := if reply.Done? then PutCollector(w.work, id, c.(phase := Unlinked)) else DropCollector(w.work, id);
    w.(cat := cat, work := work)
  }

  function DoRemove(w: World, id: nat): World
    requires id in w.work.collectors
  {
    var c := w.work.collectors[id];
    var (cat, reply) := GcRemove(w.cat, c.key, c.fence);
    var v := w.(cat := cat, work := DropCollector(w.work, id));
    if reply.Retention?
    then v.(past := w.past.(origin := w.past.origin - {c.key},
                            granted := map t | t in w.past.granted && w.past.granted[t].key != c.key ::
                              w.past.granted[t]))
    else v
  }

  function DoOpen(w: World, id: nat, k: Key, owner: string, task: string): World {
    if Authorized(w.cat, k, owner, task) && k in w.past.origin
    then
      var reader := Reader(w.cat.entries[k].manifest, w.cat.entries[k].blob, w.past.origin[k]);
      w.(work := w.work.(readers := w.work.readers[id := reader]))
    else w
  }

  function DoRead(w: World, id: nat): World {
    w.(work := w.work.(readers := w.work.readers - {id}))
  }

  // Somebody else rewrites or removes a file.
  function DoTamper(w: World, p: Path, content: Option<Ciphertext<Aad>>): World {
    w.(cat := w.cat.(files := if content.Some? then w.cat.files[p := content.value] else w.cat.files - {p}))
  }

  // ----- Runs -----

  datatype Label =
    | LPublish(m: Manifest, bytes: Bytes, supply: Supply)
    | LAcquire(key: Key, owner: string, task: string, now: int, ttl: int, token: Token)
    | LRelease(token: Token, holder: Option<Key>)
    | LPlaceHold(key: Key, hold: string, wellFormed: bool)
    | LDropHold(key: Key, hold: string)
    | LReleaseReference(key: Key, task: string)
    | LMark(id: nat, key: Key, now: int, batch: int)
    | LCheck(id: nat)
    | LUnlink(id: nat, io: Io)
    | LRemove(id: nat)
    | LOpen(id: nat, key: Key, owner: string, task: string)
    | LRead(id: nat, keyAvailable: bool)
    | LTamper(path: Path, content: Option<Ciphertext<Aad>>)

  predicate Enabled(w: World, l: Label) {
    match l
    case LPublish(m, _, supply) => DonorFound(w.cat, m, supply.donor) && supply.path !in w.past.paths
    case LAcquire(_, _, _, _, _, token) => token !in w.past.tokens
    case LRelease(token, holder) => HolderFound(w.cat, token, holder)
    case LMark(id, _, _, _) => id !in w.work.collectors
    case LCheck(id) => id in w.work.collectors && w.work.collectors[id].phase.Marked?
    case LUnlink(id, _) => id in w.work.collectors && w.work.collectors[id].phase.Checked?
    case LRemove(id) => id in w.work.collectors && w.work.collectors[id].phase.Unlinked?
    case LOpen(id, _, _, _) => id !in w.work.readers
    case LRead(id, _) => id in w.work.readers
    case _ => true
  }

  function Next(w: World, l: Label): World
    requires Enabled(w, l)
  {
    match l
    case LPublish(m, bytes, supply) => DoPublish(w, m, bytes, supply)
    case LAcquire(k, owner, task, now, ttl, token) => DoAcquire(w, k, owner, task, now, ttl, token)
    case LRelease(token, holder) => DoRelease(w, token, holder)
    case LPlaceHold(k, hold, ok) => DoPlaceHold(w, k, hold, ok)
    case LDropHold(k, hold) => DoDropHold(w, k, hold)
    case LReleaseReference(k, task) => DoReleaseReference(w, k, task)
    case LMark(id, k, now, batch) => DoMark(w, id, k, now, batch)
    case LCheck(id) => DoCheck(w, id)
    case LUnlink(id, io) => DoUnlink(w, id, io)
    case LRemove(id) => DoRemove(w, id)
    case LOpen(id, k, owner, task) => DoOpen(w, id, k, owner, task)
    case LRead(id, _) => DoRead(w, id)
    case LTamper(p, content) => DoTamper(w, p, content)
  }

  // Leases, holds, references and readers come and go without a change to what the collectors look at.
  lemma OthersAreQuiet(w: World, l: Label)
    requires Enabled(w, l) && !l.LPublish? && !l.LMark? && !l.LCheck? && !l.LUnlink? && !l.LRemove? && !l.LTamper?
    ensures Quiet(w, Next(w, l))
  {
  }

  predicate Legal(clock: int, run: seq<Label>)
    decreases |run|, 0
  {
    run == [] || (Legal(clock, run[..|run| - 1]) && Enabled(After(clock, run[..|run| - 1]), run[|run| - 1]))
  }

  function After(clock: int, run: seq<Label>): World
    requires Legal(clock, run)
    decreases |run|, 1
  {
    if run == [] then Empty(clock) else Next(After(clock, run[..|run| - 1]), run[|run| - 1])
  }

  ghost predicate Along(clock: int, run: seq<Label>, p: (World, Label) -> bool)
    requires Legal(clock, run)
    decreases |run|
  {
    run == [] ||
    (Along(clock, run[..|run| - 1], p) && p(After(clock, run[..|run| - 1]), run[|run| - 1]))
  }

  // ----- Restrictions that some of the theorems put on the steps of a run -----

  // No collector starts on a key that another collector still works on, and nobody tampers.
  predicate OneCollectorPerKey(w: World, l: Label) {
    !l.LTamper? && (l.LMark? ==> forall id | id in w.work.collectors :: w.work.collectors[id].key != l.key)
  }

  // In addition, file steps succeed.
  predicate Smooth(w: World, l: Label) {
    OneCollectorPerKey(w, l) && (l.LPublish? ==> l.supply.io.Succeeds?) && (l.LUnlink? ==> l.io.Succeeds?)
  }

  predicate Untampered(w: World, l: Label) { !l.LTamper? }

  // Collectors are given times that do not go back.
  predicate Timely(w: World, l: Label) { l.LMark? ==> w.gcClock <= l.now }
}
