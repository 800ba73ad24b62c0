/**
 Key rotation: re-encrypting every stored object under a new key generation.

 The world is the database tables, the stage and object directories, and one executor, whose program
 counter says which database statement or file call comes next. A crash, or any error the executor
 returns with, drops the executor and nothing else. The domain lock is what makes it one executor.
 Three records of the past are kept that no code reads: the bytes each object was published with,
 which random names were drawn and by whom, and which names a content row has ever carried.
 */
module Rotation {
  import opened Options

  // Names, tokens, generations and the like are compared and never looked into.
  type Name = int
  type ObjectId = int
  type JobId = int
  type LeaseId = int
  type Token = int
  type Generation = int
  type Scope = int

  // A plaintext is known by its digest, which is taken as collision free.
  datatype Plaintext = Plaintext(digest: int, length: int)

  // `scope` is the tenant, the encryption domain and the classification.
  datatype Subject = Subject(scope: Scope, content: Plaintext)

  datatype Aad = Aad(subject: Subject, generation: Generation)

  // What an encryption call returned; opening it with anything but the same generation, nonce and
  // associated data fails, which is the interface of section 2 of RFC 5116.
  datatype Ciphertext = Ciphertext(generation: Generation, nonce: int, aad: Aad, plaintext: Plaintext)

  // The random name locates both the stage file and, once promoted, the object file.
  datatype Copy = Copy(name: Name, nonce: int, digest: Ciphertext)

  datatype Row = Row(subject: Subject, generation: Generation, copy: Copy)

  datatype JobState = Pending | Leased | Staged | Promoted | Swapped | Cleanup | Completed | Failed

  datatype Job = Job(
    target: ObjectId, oldGeneration: Generation, newGeneration: Generation, oldName: Name, state: JobState,
    copy: Option<Copy>, seal: Option<Aad>, token: Token, epoch: int, leaseUntil: int, rollbackUntil: int)

  datatype Lease = Lease(target: ObjectId, row: Row, until: int)

  // What the executor does next for the job at hand.
  datatype Phase =
    | ToEncrypt | ToRegister
    | ToProbe | ToLink | ToUnlinkStage(verified: bool) | ToCheck | ToAck
    | ToVerify | ToSwap
    | ToDelete | ToFail

  datatype Work = Work(job: JobId, claim: Job, row: Row, copy: Option<Copy>, phase: Phase)

  datatype Executor =
    | Idle
    | Working(batch: map<JobId, Job>, work: Option<Work>)
    | Cleaning(todo: set<JobId>, done: set<JobId>)

  datatype Maker = Publisher | Rewriter(job: JobId)

  datatype Database = Database(rows: map<ObjectId, Row>, jobs: map<JobId, Job>, leases: map<LeaseId, Lease>, now: int)

  datatype Disk = Disk(stage: map<Name, Ciphertext>, objects: map<Name, Ciphertext>)

  datatype Past = Past(origin: map<ObjectId, Plaintext>, names: map<Name, Maker>, published: map<Name, ObjectId>)

  datatype World = World(db: Database, disk: Disk, executor: Executor, past: Past)

  function Start(now: int): World {
    World(Database(map[], map[], map[], now), Disk(map[], map[]), Idle, Past(map[], map[], map[]))
  }

  function Encrypted(subject: Subject, generation: Generation, nonce: int, plaintext: Plaintext): Ciphertext {
    Ciphertext(generation, nonce, Aad(subject, generation), plaintext)
  }

  // The file is there with the recorded length and digest.
  predicate Holds(files: map<Name, Ciphertext>, copy: Copy) {
    copy.name in files && files[copy.name] == copy.digest
  }

  // Read, authenticate, decrypt, and compare with the recorded content digest and length.
  function ReadCopy(files: map<Name, Ciphertext>, copy: Copy, generation: Generation,
                    subject: Subject): Option<Plaintext> {
    if !Holds(files, copy) then None
    else
      var c := files[copy.name];
      if c.generation == generation && c.nonce == copy.nonce && c.aad == Aad(subject, generation) &&
         c.plaintext == subject.content
      then Some(c.plaintext) else None
  }

  function ReadRow(files: map<Name, Ciphertext>, row: Row): Option<Plaintext> {
    ReadCopy(files, row.copy, row.generation, row.subject)
  }

  predicate Active(w: World, id: LeaseId) { id in w.db.leases && w.db.now < w.db.leases[id].until }

  // ----- Everybody else -----

  function DoPublish(w: World, o: ObjectId, subject: Subject, generation: Generation, name: Name, nonce: int,
                     content: Plaintext): World {
    var c := Encrypted(subject, generation, nonce, content);
    World(w.db.(rows := w.db.rows[o := Row(subject, generation, Copy(name, nonce, c))]),
          w.disk.(objects := w.disk.objects[name := c]), w.executor,
          Past(w.past.origin[o := content], w.past.names[name := Publisher], w.past.published[name := o]))
  }

  function DoTick(w: World, now: int): World { w.(db := w.db.(now := now)) }

  function DoGrant(w: World, id: LeaseId, o: ObjectId, until: int): World
    requires o in w.db.rows
  {
    w.(db := w.db.(leases := w.db.leases[id := Lease(o, w.db.rows[o], until)]))
  }

  function DoRenew(w: World, id: LeaseId, until: int): World
    requires id in w.db.leases
  {
    w.(db := w.db.(leases := w.db.leases[id := w.db.leases[id].(until := until)]))
  }

  function DoReturn(w: World, id: LeaseId): World { w.(db := w.db.(leases := w.db.leases - {id})) }

  // The orphan scanner drops a stage file that no registered job answers for.
  function DoScan(w: World, name: Name): World { w.(disk := w.disk.(stage := w.disk.stage - {name})) }

  function Put(files: map<Name, Ciphertext>, name: Name, content: Option<Ciphertext>): map<Name, Ciphertext> {
    if content.Some? then files[name := content.value] else files - {name}
  }

  // The files of a copy that no row has taken up, and that nobody is working on, are damaged or lost.
  function DoCorrupt(w: World, name: Name, stage: Option<Ciphertext>, blob: Option<Ciphertext>): World {
    w.(disk := Disk(Put(w.disk.stage, name, stage), Put(w.disk.objects, name, blob)))
  }

  predicate StageLive(w: World, name: Name) {
    exists j :: j in w.db.jobs && w.db.jobs[j].copy.Some? && w.db.jobs[j].copy.value.name == name &&
                (w.db.jobs[j].state.Staged? || w.db.jobs[j].state.Promoted? || w.db.jobs[j].state.Swapped? ||
                 w.db.jobs[j].state.Cleanup? || w.db.jobs[j].state.Completed?)
  }

  // ----- Jobs and claims -----

  function PutJob(w: World, j: JobId, x: Job): World { w.(db := w.db.(jobs := w.db.jobs[j := x])) }

  function DoPlan(w: World, j: JobId, o: ObjectId, generation: Generation): World
    requires o in w.db.rows
  {
    var row := w.db.rows[o];
    PutJob(w, j, Job(o, row.generation, generation, row.copy.name, Pending, None, None, 0, 1, 0, 0))
  }

  predicate Claimable(w: World, j: JobId) {
    && j in w.db.jobs && !w.db.jobs[j].state.Completed? && !w.db.jobs[j].state.Failed?
    && (w.db.jobs[j].state.Pending? || w.db.jobs[j].leaseUntil <= w.db.now)
  }

  predicate Free(w: World) { w.executor.Idle? || w.executor == Working(map[], None) }

  function Claim(x: Job, token: Token, until: int): Job {
    x.(state := if x.state.Pending? then Leased else x.state, token := token, epoch := x.epoch + 1, leaseUntil := until)
  }

  function DoClaim(w: World, chosen: set<JobId>, token: Token, until: int): World
    requires forall j | j in chosen :: j in w.db.jobs
  {
    w.(db := w.db.(jobs := map j | j in w.db.jobs ::
                   if j in chosen then Claim(w.db.jobs[j], token, until) else w.db.jobs[j]),
       executor := Working(map j | j in chosen :: Claim(w.db.jobs[j], token, until), None))
  }

  // A job claimed too often is given up when the next claim comes by.
  function DoExhaust(w: World, j: JobId): World
    requires j in w.db.jobs
  {
    PutJob(w, j, w.db.jobs[j].(state := Failed))
  }

  // ----- The executor on one job -----

  predicate AtWork(w: World) { w.executor.Working? && w.executor.work.Some? }

  function TheWork(w: World): Work
    requires AtWork(w)
  {
    w.executor.work.value
  }

  predicate At(w: World, phase: Phase) { AtWork(w) && TheWork(w).phase == phase }

  predicate AtCopy(w: World, phase: Phase) { At(w, phase) && TheWork(w).copy.Some? }

  function Continue(w: World, phase: Phase): World
    requires AtWork(w)
  {
    var k := TheWork(w);
    w.(executor := Working(w.executor.batch, Some(Work(k.job, k.claim, k.row, k.copy, phase))))
  }

  // A crash, or an error returned to the operator.
  function Stop(w: World): World { w.(executor := Idle) }

  // The fence of every job update: the claim's token and epoch, and for most an unexpired lease.
  predicate Fenced(w: World, k: Work) {
    k.job in w.db.jobs && w.db.jobs[k.job].token == k.claim.token && w.db.jobs[k.job].epoch == k.claim.epoch
  }

  predicate Held(w: World, k: Work) { Fenced(w, k) && w.db.now < w.db.jobs[k.job].leaseUntil }

  function ExpectedSeal(claim: Job, row: Row): Aad { Aad(row.subject, claim.newGeneration) }

  datatype Opening = Abort | Skip | Go(copy: Option<Copy>, phase: Phase)

  // Where the work on a claimed job starts.
  function Resume(c: Job, row: Row): Opening {
    if c.state.Leased? then Go(None, if c.copy.Some? then ToFail else ToEncrypt)
    else if c.copy.None? then Abort
    else if c.seal != Some(ExpectedSeal(c, row)) then Go(None, ToFail)
    else if c.state.Staged? then Go(c.copy, ToProbe)
    else if c.state.Promoted? then Go(c.copy, ToVerify)
    else Skip
  }

  function DoBegin(w: World, j: JobId): World
    requires w.executor.Working? && j in w.executor.batch && w.executor.batch[j].target in w.db.rows
  {
    var c, rest := w.executor.batch[j], w.executor.batch - {j};
    match Resume(c, w.db.rows[c.target])
    case Abort => Stop(w)
    case Skip => w.(executor := Working(rest, None))
    case Go(copy, phase) => w.(executor := Working(rest, Some(Work(j, c, w.db.rows[c.target], copy, phase))))
  }

  function DoEncrypt(w: World, name: Name, nonce: int): World
    requires At(w, ToEncrypt)
  {
    var k := TheWork(w);
    var plaintext := ReadRow(w.disk.objects, k.row);
    if plaintext.None? then Stop(w)
    else
      var c := Encrypted(k.row.subject, k.claim.newGeneration, nonce, plaintext.value);
      w.(disk := w.disk.(stage := w.disk.stage[name := c]),
         past := w.past.(names := w.past.names[name := Rewriter(k.job)]),
         executor := Working(w.executor.batch,
                             Some(Work(k.job, k.claim, k.row, Some(Copy(name, nonce, c)), ToRegister))))
  }

  function DoRegister(w: World): World
    requires AtCopy(w, ToRegister)
  {
    var k := TheWork(w);
    if Held(w, k) && w.db.jobs[k.job].state.Leased?
    then PutJob(Continue(w, ToProbe), k.job,
                w.db.jobs[k.job].(state := Staged, copy := k.copy, seal := Some(ExpectedSeal(k.claim, k.row))))
    else Stop(w)
  }

  // The registered object may already be in place from before a crash.
  function DoProbe(w: World): World
    requires AtCopy(w, ToProbe)
  {
    var copy := TheWork(w).copy.value;
    if copy.name in w.disk.objects && w.disk.objects[copy.name].plaintext.length == copy.digest.plaintext.length
    then Continue(w, if w.disk.objects[copy.name] == copy.digest then ToUnlinkStage(true) else ToDelete)
    else Continue(w, ToLink)
  }

  function DoLink(w: World): World
    requires AtCopy(w, ToLink)
  {
    var name := TheWork(w).copy.value.name;
    if name !in w.disk.stage then Continue(w, ToDelete)
    else if name in w.disk.objects then Continue(w, ToUnlinkStage(false))
    else Continue(w, ToUnlinkStage(false)).(disk := w.disk.(objects := w.disk.objects[name := w.disk.stage[name]]))
  }

  function DoUnlinkStage(w: World): World
    requires AtWork(w) && TheWork(w).phase.ToUnlinkStage? && TheWork(w).copy.Some?
  {
    var k := TheWork(w);
    var next := if k.phase.verified then ToAck else ToCheck;
    Continue(w, next).(disk := w.disk.(stage := w.disk.stage - {k.copy.value.name}))
  }

  function DoCheck(w: World): World
    requires AtCopy(w, ToCheck)
  {
    Continue(w, if Holds(w.disk.objects, TheWork(w).copy.value) then ToAck else ToDelete)
  }

  function DoAck(w: World): World
    requires AtCopy(w, ToAck)
  {
    var k := TheWork(w);
    if Held(w, k) && w.db.jobs[k.job].state.Staged? && w.db.jobs[k.job].copy == k.copy &&
       w.db.jobs[k.job].seal == Some(ExpectedSeal(k.claim, k.row))
    then PutJob(Continue(w, ToVerify), k.job, w.db.jobs[k.job].(state := Promoted))
    else Stop(w)
  }

  function DoVerify(w: World): World
    requires AtCopy(w, ToVerify)
  {
    var k := TheWork(w);
    var read := ReadCopy(w.disk.objects, k.copy.value, k.claim.newGeneration, k.row.subject);
    Continue(w, if read.Some? then ToSwap else ToDelete)
  }

  // The phases whose step is settled by the world alone.
  predicate Plain(phase: Phase) {
    phase.ToRegister? || phase.ToProbe? || phase.ToLink? || phase.ToUnlinkStage? || phase.ToCheck? || phase.ToAck? ||
    phase.ToVerify?
  }

  function DoWork(w: World): World
    requires AtWork(w) && TheWork(w).copy.Some? && Plain(TheWork(w).phase)
  {
    var phase := TheWork(w).phase;
    if phase.ToRegister? then DoRegister(w)
    else if phase.ToProbe? then DoProbe(w)
    else if phase.ToLink? then DoLink(w)
    else if phase.ToUnlinkStage? then DoUnlinkStage(w)
    else if phase.ToCheck? then DoCheck(w)
    else if phase.ToAck? then DoAck(w)
    else DoVerify(w)
  }

  predicate Swappable(w: World, k: Work) {
    && Held(w, k) && w.db.jobs[k.job].state.Promoted? && w.db.jobs[k.job].seal == Some(ExpectedSeal(k.claim, k.row))
    && w.db.jobs[k.job].copy.Some? && w.db.jobs[k.job].target in w.db.rows
    && w.db.rows[w.db.jobs[k.job].target].generation == w.db.jobs[k.job].oldGeneration
    && w.db.rows[w.db.jobs[k.job].target].copy.name == w.db.jobs[k.job].oldName
  }

  function DoSwap(w: World, horizon: nat): World
    requires AtCopy(w, ToSwap)
  {
    var k := TheWork(w);
    if Swappable(w, k) then
      var x := w.db.jobs[k.job];
      World(w.db.(rows :=
                  w.db.rows[x.target := w.db.rows[x.target].(generation := x.newGeneration, copy := x.copy.value)],
                  jobs := w.db.jobs[k.job := x.(state := Swapped, rollbackUntil := w.db.now + horizon)]),
            w.disk, Working(w.executor.batch, None),
            w.past.(published := w.past.published[x.copy.value.name := x.target]))
    else Stop(w)
  }

  function DoDelete(w: World, succeeds: bool): World
    requires AtCopy(w, ToDelete)
  {
    Continue(w, ToFail).(disk :=
      if succeeds then w.disk.(objects := w.disk.objects - {TheWork(w).copy.value.name}) else w.disk)
  }

  function DoFail(w: World, succeeds: bool): World
    requires At(w, ToFail)
  {
    var k := TheWork(w);
    if succeeds && Fenced(w, k) then PutJob(Stop(w), k.job, w.db.jobs[k.job].(state := Failed))
    else Stop(w)
  }

  // A file call of the promotion, the verification or the chunk comparison fails.
  predicate Risky(phase: Phase) {
    phase.ToProbe? || phase.ToLink? || phase.ToUnlinkStage? || phase.ToCheck? || phase.ToAck? || phase.ToVerify? ||
    phase.ToSwap?
  }

  // ----- Cleaning up -----

  predicate Due(w: World, j: JobId) {
    && j in w.db.jobs && (w.db.jobs[j].state.Swapped? || w.db.jobs[j].state.Cleanup?) &&
       w.db.jobs[j].rollbackUntil <= w.db.now
    && w.db.jobs[j].copy.Some? && w.db.jobs[j].target in w.db.rows
    && w.db.rows[w.db.jobs[j].target].generation == w.db.jobs[j].newGeneration
    && w.db.rows[w.db.jobs[j].target].copy.name == w.db.jobs[j].copy.value.name
    && forall id | id in w.db.leases :: !(w.db.leases[id].target == w.db.jobs[j].target && Active(w, id))
  }

  function DoSelect(w: World, chosen: set<JobId>): World { w.(executor := Cleaning(chosen, {})) }

  function DoUnlinkOld(w: World, j: JobId): World
    requires w.executor.Cleaning? && j in w.db.jobs
  {
    w.(executor := Cleaning(w.executor.todo - {j}, w.executor.done + {j}),
       disk := if w.db.jobs[j].state.Swapped?
         then w.disk.(objects := w.disk.objects - {w.db.jobs[j].oldName}) else w.disk)
  }

  function DoFinish(w: World): World
    requires w.executor.Cleaning?
  {
    w.(executor := Idle,
       db := w.db.(jobs := map j | j in w.db.jobs ::
         if j in w.executor.done then w.db.jobs[j].(state := Completed, token := 0, leaseUntil := 0) else w.db.jobs[j]))
  }

  // ----- Runs -----

  datatype Label =
    | LPublish(target: ObjectId, subject: Subject, generation: Generation, name: Name, nonce: int, content: Plaintext)
    | LTick(to: int)
    | LGrant(id: LeaseId, target: ObjectId, until: int)
    | LRenew(id: LeaseId, until: int)
    | LReturn(id: LeaseId)
    | LScan(name: Name)
    | LCorrupt(name: Name, stage: Option<Ciphertext>, blob: Option<Ciphertext>)
    | LPlan(job: JobId, target: ObjectId, generation: Generation)
    | LClaim(chosen: set<JobId>, token: Token, until: int)
    | LExhaust(job: JobId)
    | LBegin(job: JobId)
    | LEncrypt(name: Name, nonce: int)
    | LWork
    | LSwap(horizon: nat)
    | LDelete(succeeds: bool)
    | LFail(succeeds: bool)
    | LTrouble
    | LProbeFails
    | LSelect(chosen: set<JobId>)
    | LUnlinkOld(job: JobId)
    | LFinish
    | LCrash

  predicate Enabled(w: World, l: Label) {
    match l
    case LPublish(o, subject, _, name, _, content) =>
      o !in w.db.rows && name !in w.past.names && subject.content == content
    case LTick(to) => w.db.now <= to
    case LGrant(id, o, _) => id !in w.db.leases && o in w.db.rows
    case LRenew(id, _) => Active(w, id)
    case LReturn(_) => true
    case LScan(name) => !StageLive(w, name)
    case LCorrupt(name, _, _) =>
      name in w.past.names && name !in w.past.published &&
      !(AtWork(w) && TheWork(w).copy.Some? && TheWork(w).copy.value.name == name)
    case LPlan(j, o, _) => j !in w.db.jobs && o in w.db.rows
    case LClaim(chosen, _, _) => Free(w) && forall j | j in chosen :: Claimable(w, j)
    case LExhaust(j) => Free(w) && Claimable(w, j)
    case LBegin(j) =>
      w.executor.Working? && w.executor.work.None? && j in w.executor.batch && w.executor.batch[j].target in w.db.rows
    case LEncrypt(name, _) => At(w, ToEncrypt) && name !in w.past.names
    case LWork => AtWork(w) && TheWork(w).copy.Some? && Plain(TheWork(w).phase)
    case LSwap(_) => AtCopy(w, ToSwap)
    case LDelete(_) => AtCopy(w, ToDelete)
    case LFail(_) => At(w, ToFail)
    case LProbeFails => AtCopy(w, ToProbe)
    case LTrouble => AtWork(w) && Risky(TheWork(w).phase) && TheWork(w).copy.Some?
    case LSelect(chosen) => Free(w) && forall j | j in chosen :: Due(w, j)
    case LUnlinkOld(j) => w.executor.Cleaning? && j in w.executor.todo && j in w.db.jobs
    case LFinish => w.executor.Cleaning? && w.executor.todo == {}
    case LCrash => true
  }

  function Next(w: World, l: Label): World
    requires Enabled(w, l)
  {
    match l
    case LPublish(o, subject, generation, name, nonce, content) =>
      DoPublish(w, o, subject, generation, name, nonce, content)
    case LTick(to) => DoTick(w, to)
    case LGrant(id, o, until) => DoGrant(w, id, o, until)
    case LRenew(id, until) => DoRenew(w, id, until)
    case LReturn(id) => DoReturn(w, id)
    case LScan(name) => DoScan(w, name)
    case LCorrupt(name, stage, blob) => DoCorrupt(w, name, stage, blob)
    case LPlan(j, o, generation) => DoPlan(w, j, o, generation)
    case LClaim(chosen, token, until) => DoClaim(w, chosen, token, until)
    case LExhaust(j) => DoExhaust(w, j)
    case LBegin(j) => DoBegin(w, j)
    case LEncrypt(name, nonce) => DoEncrypt(w, name, nonce)
    case LWork => DoWork(w)
    case LSwap(horizon) => DoSwap(w, horizon)
    case LDelete(succeeds) => DoDelete(w, succeeds)
    case LFail(succeeds) => DoFail(w, succeeds)
    case LTrouble => Continue(w, ToDelete)
    // An object that cannot be read is taken for one that is not there.
    case LProbeFails => Continue(w, ToLink)
    case LSelect(chosen) => DoSelect(w, chosen)
    case LUnlinkOld(j) => DoUnlinkOld(w, j)
    case LFinish => DoFinish(w)
    case LCrash => Stop(w)
  }

  predicate Legal(now: int, run: seq<Label>)
    decreases |run|, 0
  {
    run == [] || (Legal(now, run[..|run| - 1]) && Enabled(After(now, run[..|run| - 1]), run[|run| - 1]))
  }

  function After(now: int, run: seq<Label>): World
    requires Legal(now, run)
    decreases |run|, 1
  {
    if run == [] then Start(now) else Next(After(now, run[..|run| - 1]), run[|run| - 1])
  }
}
