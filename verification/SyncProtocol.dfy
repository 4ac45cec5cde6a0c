/**
 One run of the desktop backup sync (desktop/src/sync.js) as a plan of steps on
 the disk, the state file and the server, performed under a schedule of faults.
 Every step that does I/O may complete, throw, or be the last thing the process
 does; a step that is not atomic may stop half way and leave debris.
 */
module SyncProtocol {
  import opened Common
  import opened Envelope

  const COMPONENTS: seq<string> := ["config", "storage_index", "postgres_dump", "storage_delta"]

  datatype Snapshot = Snapshot(id: string, sequence: int, ready: bool)

  datatype Record = Record(sequence: int, completedAt: Option<int>, encryptedFiles: map<string, string>)

  datatype SyncStatus = StatusOk | StatusFailed

  datatype SyncState = SyncState(
    lastStartedAt: Option<int>,
    lastCompletedAt: Option<int>,
    lastStatus: Option<SyncStatus>,
    lastError: Option<string>,
    lastSnapshotId: Option<string>,
    lastSnapshotSequence: Option<int>,
    intervalMinutes: int,
    snapshots: map<string, Record>)

  const DEFAULT_STATE: SyncState := SyncState(None, None, None, None, None, None, 60, map[])

  type Files = map<string, Bytes>

  // The backups directory, the state file and its temporary siblings (None for a
  // half-written one), the server's acknowledgements, and the run's own copy of the state.
  datatype World = World(
    dirs: map<string, Files>,
    stateFile: Option<SyncState>,
    temps: map<string, Option<SyncState>>,
    acked: set<string>,
    memory: SyncState)

  datatype Environment = Environment(
    aead: Aead,
    sha256: Bytes -> string,
    manifest: (string, string) -> Option<string>)  // snapshot id, component -> recorded digest

  // What one run is given: the listing, the bytes each download yields, fresh salts
  // and ivs, the password, names for temporary files and readings of the clock.
  datatype Input = Input(
    listing: seq<Snapshot>,
    downloads: string -> Bytes,
    nonces: string -> (Bytes, Bytes),
    password: string,
    temps: (string, string, string),
    startedAt: int,
    finishedAt: int,
    errorText: string)

  datatype Op =
    | Ask  // read the state file, or a request that changes nothing
    | Remember(state: SyncState)
    | WriteTemp(name: string)
    | RenameTemp(name: string)
    | RemoveDir(dir: string)
    | MakeDir(dir: string)
    | Download(dir: string, component: string, bytes: Bytes)
    | Encrypt(dir: string, component: string, password: string, salt: Bytes, iv: Bytes)
    | DropPlain(dir: string, component: string)
    | RenameDir(from: string, to: string)
    | Ack(id: string)
    | Raise

  datatype Plan = Stop | Do(op: Op, rest: Plan)

  datatype Debris = Debris(bytes: Bytes, gone: set<string>, reached: bool)

  datatype Fault = Fine | Throw(debris: Debris) | Crash(debris: Debris)

  // The faults to come, one per I/O step; nothing fails after the last one.
  datatype Schedule = Quiet | Upcoming(fault: Fault, later: Schedule)
  {
    function Head(): Fault { if Quiet? then Fine else fault }
    function Tail(): Schedule { if Quiet? then Quiet else later }
  }

  datatype End = Finished | Threw | Crashed

  datatype Outcome = Outcome(world: World, end: End, faults: Schedule)

  // --- names --------------------------------------------------------------

  function Plain(component: string): string {
    component + ".plain"
  }

  function Sealed(component: string): string {
    component + ".snbk"
  }

  function Staging(id: string): string {
    id + ".partial"
  }

  // Snapshot ids are UUIDs in their 36-character form.
  predicate IsId(name: string) {
    |name| == 36
  }

  // JavaScript's String.replace with a string pattern: the first occurrence only.
  function Replace(text: string, pattern: string, by': string): string {
    if pattern <= text then by' + text[|pattern|..]
    else if text == "" then ""
    else [text[0]] + Replace(text[1..], pattern, by')
  }

  function RecordedPath(id: string, component: string): string {
    Replace(Staging(id) + "/" + Sealed(component), Staging(id), id)
  }

  function RecordedPaths(id: string): map<string, string> {
    map c | c in COMPONENTS :: RecordedPath(id, c)
  }

  // --- one step -----------------------------------------------------------

  predicate Possible(w: World, op: Op) {
    match op
    case Download(dir, _, _) => dir in w.dirs
    case Encrypt(dir, c, _, _, _) => dir in w.dirs && Plain(c) in w.dirs[dir]
    case RenameDir(from, to) => from in w.dirs && to !in w.dirs
    case RenameTemp(name) => name in w.temps && w.temps[name].Some?
    case Raise => false
    case _ => true
  }

  function PutFile(w: World, dir: string, name: string, bytes: Bytes): World
    requires dir in w.dirs
  {
    w.(dirs := w.dirs[dir := w.dirs[dir][name := bytes]])
  }

  function Completed(env: Environment, w: World, op: Op): World
    requires Possible(w, op)
  {
    match op
    case Ask => w
    case Remember(state) => w.(memory := state)
    case WriteTemp(name) => w.(temps := w.temps[name := Some(w.memory)])
    case RenameTemp(name) => w.(stateFile := w.temps[name], temps := w.temps - {name})
    case RemoveDir(dir) => w.(dirs := w.dirs - {dir})
    case MakeDir(dir) => if dir in w.dirs then w else w.(dirs := w.dirs[dir := map[]])
    case Download(dir, c, bytes) => PutFile(w, dir, Plain(c), bytes)
    case Encrypt(dir, c, password, salt, iv) =>
      PutFile(w, dir, Sealed(c), Print(env.aead, password, salt, iv, w.dirs[dir][Plain(c)]))
    case DropPlain(dir, c) =>
      if dir in w.dirs then w.(dirs := w.dirs[dir := w.dirs[dir] - {Plain(c)}]) else w
    case RenameDir(from, to) => w.(dirs := (w.dirs - {from})[to := w.dirs[from]])
    case Ack(id) => w.(acked := w.acked + {id})
  }

  // Where a step that did not complete can leave things.
  function Interrupted(w: World, op: Op, debris: Debris): World {
    match op
    case WriteTemp(name) => w.(temps := w.temps[name := None])
    case RemoveDir(dir) =>
      if dir in w.dirs then w.(dirs := w.dirs[dir := w.dirs[dir] - debris.gone]) else w
    case Download(dir, c, _) => if dir in w.dirs then PutFile(w, dir, Plain(c), debris.bytes) else w
    case Encrypt(dir, c, _, _, _) => if dir in w.dirs then PutFile(w, dir, Sealed(c), debris.bytes) else w
    case Ack(id) => if debris.reached then w.(acked := w.acked + {id}) else w
    case _ => w
  }

  // Steps that only touch the run's memory cannot fail.
  function FaultAt(op: Op, faults: Schedule): (Fault, Schedule) {
    if op.Remember? then (Fine, faults) else (faults.Head(), faults.Tail())
  }

  function Perform(env: Environment, w: World, plan: Plan, faults: Schedule): Outcome
    decreases plan
  {
    match plan
    case Stop => Outcome(w, Finished, faults)
    case Do(op, rest) =>
      var (fault, later) := FaultAt(op, faults);
      match fault
      case Crash(debris) => Outcome(Interrupted(w, op, debris), Crashed, later)
      case Throw(debris) => Outcome(Interrupted(w, op, debris), Threw, later)
      case Fine =>
        if Possible(w, op) then Perform(env, Completed(env, w, op), rest, later) else Outcome(w, Threw, later)
  }

  // --- the plan of a run --------------------------------------------------

  function Save(name: string): Plan {
    Do(WriteTemp(name), Do(RenameTemp(name), Stop))
  }

  function Load(w: World): SyncState {
    if w.stateFile.Some? then w.stateFile.value else DEFAULT_STATE
  }

  function Ready(listing: seq<Snapshot>): seq<Snapshot> {
    if listing == [] then []
    else (if listing[0].ready then [listing[0]] else []) + Ready(listing[1..])
  }

  // Left to right, a later snapshot replaces the best so far unless that has a greater sequence.
  function Latest(ready: seq<Snapshot>): Snapshot
    requires ready != []
  {
    if |ready| == 1 then ready[0]
    else
      var a, b := Latest(ready[..|ready| - 1]), ready[|ready| - 1];
      if a.sequence > b.sequence then a else b
  }

  predicate CompletedIn(state: SyncState, id: string) {
    id in state.snapshots && state.snapshots[id].completedAt.Some?
  }

  // An absent or empty digest is not checked.
  predicate DigestAccepts(env: Environment, id: string, component: string, bytes: Bytes) {
    var digest := env.manifest(id, component);
    digest.None? || digest.value == "" || env.sha256(bytes) == digest.value
  }

  function Components(env: Environment, input: Input, id: string, i: nat, after: Plan): Plan
    requires i <= |COMPONENTS|
    decreases |COMPONENTS| - i
  {
    if i == |COMPONENTS| then after
    else
      var c, dir := COMPONENTS[i], Staging(id);
      var bytes, nonce := input.downloads(c), input.nonces(c);
      Do(Ask, Do(Download(dir, c, bytes),
         if !DigestAccepts(env, id, c, bytes) then Do(DropPlain(dir, c), Do(Raise, Stop))
         else Do(Encrypt(dir, c, input.password, nonce.0, nonce.1), Do(DropPlain(dir, c),
                 Components(env, input, id, i + 1, after)))))
  }

  function WithRecord(state: SyncState, latest: Snapshot, now: int): SyncState {
    state.(snapshots := state.snapshots[latest.id :=
             Record(latest.sequence, Some(now), RecordedPaths(latest.id))],
           lastStatus := Some(StatusOk),
           lastCompletedAt := Some(now),
           lastError := None,
           lastSnapshotId := Some(latest.id),
           lastSnapshotSequence := Some(latest.sequence))
  }

  function Publish(input: Input, state: SyncState, latest: Snapshot): Plan {
    Do(RemoveDir(latest.id), Do(RenameDir(Staging(latest.id), latest.id), Do(Ack(latest.id),
       Do(Remember(WithRecord(state, latest, input.finishedAt)), Save(input.temps.1)))))
  }

  // The body of the try block, once the listing is known; `state` is the loaded state.
  function Attempt(env: Environment, input: Input, state: SyncState): Plan {
    var ready := Ready(input.listing);
    Do(Ask,
       if ready == [] then
         Do(Remember(state.(lastStatus := Some(StatusOk), lastCompletedAt := Some(input.finishedAt), lastError := None)),
            Save(input.temps.1))
       else
         var latest := Latest(ready);
         if CompletedIn(state, latest.id) then
           Do(Remember(state.(lastStatus := Some(StatusOk),
                              lastCompletedAt := Some(input.finishedAt),
                              lastSnapshotId := Some(latest.id),
                              lastSnapshotSequence := Some(latest.sequence))),
              Save(input.temps.1))
         else
           Do(Ask, Do(RemoveDir(Staging(latest.id)), Do(MakeDir(Staging(latest.id)),
              Components(env, input, latest.id, 0, Publish(input, state, latest))))))
  }

  function Started(w: World, input: Input): SyncState {
    Load(w).(lastStartedAt := Some(input.startedAt))
  }

  function Failed(state: SyncState, input: Input): SyncState {
    state.(lastStatus := Some(StatusFailed), lastError := Some(input.errorText),
           lastCompletedAt := Some(input.finishedAt))
  }

  // A whole run: mark the start, attempt the sync, and note a failure if it threw.
  function Run(env: Environment, w: World, input: Input, faults: Schedule): Outcome {
    var begun := Perform(env, w, Do(Ask, Do(Remember(Started(w, input)), Save(input.temps.0))), faults);
    if begun.end != Finished then begun
    else
      var tried := Perform(env, begun.world, Attempt(env, input, begun.world.memory), begun.faults);
      if tried.end != Threw then tried
      else
        var noted := Perform(env, tried.world,
          Do(Remember(Failed(tried.world.memory, input)), Save(input.temps.2)), tried.faults);
        noted.(end := if noted.end == Crashed then Crashed else Threw)
  }

  datatype Attempted = Attempted(input: Input, faults: Schedule)

  function History(env: Environment, w: World, runs: seq<Attempted>): World
    decreases |runs|
  {
    if runs == [] then w
    else History(env, Run(env, w, runs[0].input, runs[0].faults).world, runs[1..])
  }
}
