/**
 What the backups directory, the state file and the server can look like after any
 number of sync runs, each of which may throw or crash at any step.
 */
module SyncSafety {
  import opened Common
  import opened Envelope
  import opened SyncProtocol
  import opened SyncEffects

  ghost predicate Located(w: World, path: string) {
    exists dir, name :: dir in w.dirs && name in w.dirs[dir] && path == dir + "/" + name
  }

  ghost predicate RecordHolds(env: Environment, w: World, id: string, record: Record) {
    && IsId(id) && id in w.dirs && CompleteDir(env, id, w.dirs[id])
    && forall c <- COMPONENTS :: c in record.encryptedFiles && record.encryptedFiles[c] == id + "/" + Sealed(c)
  }

  ghost predicate RecordsHold(env: Environment, w: World, state: SyncState) {
    forall id <- state.snapshots :: CompletedIn(state, id) ==> RecordHolds(env, w, id, state.snapshots[id])
  }

  // Every completed record is backed by a complete directory, and a directory under a
  // snapshot's own name never holds anything but encrypted components.
  ghost predicate Safe(env: Environment, w: World) {
    && RecordsHold(env, w, Load(w))
    && forall dir <- w.dirs :: IsId(dir) ==> w.dirs[dir].Keys <= SealedNames()
  }

  // Nothing recorded as complete is lost: neither its record nor its directory.
  ghost predicate Keeps(w: World, w': World) {
    forall id <- Load(w).snapshots :: CompletedIn(Load(w), id) && id in w.dirs ==>
      && id in w'.dirs && w'.dirs[id] == w.dirs[id]
      && id in Load(w').snapshots && Load(w').snapshots[id] == Load(w).snapshots[id]
  }

  // Every path a completed record lists leads to a file.
  lemma RecordedPathsExist(env: Environment, w: World, id: string, c: string)
    requires Safe(env, w) && CompletedIn(Load(w), id) && c in COMPONENTS
    ensures c in Load(w).snapshots[id].encryptedFiles && Located(w, Load(w).snapshots[id].encryptedFiles[c])
  {
    assert RecordHolds(env, w, id, Load(w).snapshots[id]);
    assert Sealed(c) in SealedNames();
    assert id in w.dirs && Sealed(c) in w.dirs[id];
  }

  lemma OtherDirsStay(w: World, w': World, latest: Snapshot, id: string)
    requires w'.dirs - {latest.id, Staging(latest.id)} == w.dirs - {latest.id, Staging(latest.id)}
    requires IsId(latest.id) && IsId(id) && id != latest.id
    ensures id in w'.dirs <==> id in w.dirs
    ensures id in w.dirs ==> w'.dirs[id] == w.dirs[id]
  {
    var hidden := {latest.id, Staging(latest.id)};
    assert |Staging(latest.id)| == 44 && id !in hidden;
    assert id in w'.dirs <==> id in w'.dirs - hidden;
    assert id in w.dirs <==> id in w.dirs - hidden;
    if id in w.dirs {
      assert (w'.dirs - hidden)[id] == (w.dirs - hidden)[id];
    }
  }

  lemma TargetIsId(w: World, input: Input)
    requires WellFormed(input) && Target(w, input).Some?
    ensures IsId(Target(w, input).value.id) && !CompletedIn(Load(w), Target(w, input).value.id)
  {
    var i := LatestIsListed(Ready(input.listing));
    ReadyIsListed(input.listing);
  }

  lemma NewRecordHolds(env: Environment, w: World, input: Input, latest: Snapshot)
    requires IsId(latest.id) && Arrived(env, w, input, latest)
    ensures RecordHolds(env, w, latest.id, NewRecord(input, latest))
  {
    forall c | c in COMPONENTS
      ensures RecordedPath(latest.id, c) == latest.id + "/" + Sealed(c)
    {
      RecordedPathIsFinal(latest.id, c);
    }
  }

  // The records a run finds complete are still there when it ends, and so are their directories.
  lemma RunKeepsRecord(env: Environment, w: World, input: Input, w': World, id: string)
    requires Safe(env, w) && WellFormed(input) && RunEffect(env, w, input, w') && CompletedIn(Load(w), id)
    ensures id in w.dirs && id in w'.dirs && w'.dirs[id] == w.dirs[id]
    ensures id in Load(w').snapshots && Load(w').snapshots[id] == Load(w).snapshots[id]
  {
    assert RecordHolds(env, w, id, Load(w).snapshots[id]);
    if Target(w, input).Some? {
      TargetIsId(w, input);
      OtherDirsStay(w, w', Target(w, input).value, id);
    }
  }

  lemma RunRecordsHonestly(env: Environment, w: World, input: Input, w': World, id: string)
    requires Safe(env, w) && WellFormed(input) && RunEffect(env, w, input, w') && CompletedIn(Load(w'), id)
    ensures RecordHolds(env, w', id, Load(w').snapshots[id])
  {
    if CompletedIn(Load(w), id) {
      assert RecordHolds(env, w, id, Load(w).snapshots[id]);
      RunKeepsRecord(env, w, input, w', id);
    } else {
      TargetIsId(w, input);
      NewRecordHolds(env, w', input, Target(w, input).value);
    }
  }

  lemma RunPublishesOnlySealed(env: Environment, w: World, input: Input, w': World, dir: string)
    requires Safe(env, w) && WellFormed(input) && RunEffect(env, w, input, w') && dir in w'.dirs && IsId(dir)
    ensures w'.dirs[dir].Keys <= SealedNames()
  {
    if Target(w, input).Some? {
      TargetIsId(w, input);
      var latest := Target(w, input).value;
      if dir != latest.id {
        OtherDirsStay(w, w', latest, dir);
      }
    }
  }

  lemma RunIsSafe(env: Environment, w: World, input: Input, faults: Schedule)
    requires Lawful(env.aead) && WellFormed(input) && Safe(env, w)
    ensures var w' := Run(env, w, input, faults).world; Safe(env, w') && Keeps(w, w')
  {
    var w' := Run(env, w, input, faults).world;
    RunHasEffect(env, w, input, faults);
    forall id | CompletedIn(Load(w'), id)
      ensures RecordHolds(env, w', id, Load(w').snapshots[id])
    {
      RunRecordsHonestly(env, w, input, w', id);
    }
    forall id | CompletedIn(Load(w), id)
      ensures id in w'.dirs && w'.dirs[id] == w.dirs[id]
      ensures id in Load(w').snapshots && Load(w').snapshots[id] == Load(w).snapshots[id]
    {
      RunKeepsRecord(env, w, input, w', id);
    }
    forall dir | dir in w'.dirs && IsId(dir)
      ensures w'.dirs[dir].Keys <= SealedNames()
    {
      RunPublishesOnlySealed(env, w, input, w', dir);
    }
  }

  // Over any number of runs, each with its own inputs and faults.
  lemma {:induction false} HistoryIsSafe(env: Environment, w: World, runs: seq<Attempted>)
    requires Lawful(env.aead) && Safe(env, w) && forall r <- runs :: WellFormed(r.input)
    ensures Safe(env, History(env, w, runs)) && Keeps(w, History(env, w, runs))
    decreases |runs|
  {
    if runs != [] {
      var w1 := Run(env, w, runs[0].input, runs[0].faults).world;
      RunIsSafe(env, w, runs[0].input, runs[0].faults);
      HistoryIsSafe(env, w1, runs[1..]);
      forall id | CompletedIn(Load(w), id)
        ensures CompletedIn(Load(w1), id) && id in w1.dirs
      {
        assert RecordHolds(env, w, id, Load(w).snapshots[id]);
      }
    }
  }

  // --- acknowledgements ---------------------------------------------------

  ghost predicate Published(env: Environment, w: World, id: string) {
    id in w.dirs && CompleteDir(env, id, w.dirs[id])
  }

  // Every acknowledgement a plan gets to send, under these faults, finds the snapshot
  // published and complete at that moment; whether or not it was acknowledged before.
  ghost predicate AcksSoundly(env: Environment, w: World, plan: Plan, faults: Schedule)
    decreases plan
  {
    match plan
    case Stop => true
    case Do(op, rest) =>
      var (fault, later) := FaultAt(op, faults);
      && (op.Ack? ==> Published(env, w, op.id))
      && (fault.Fine? && Possible(w, op) ==> AcksSoundly(env, Completed(env, w, op), rest, later))
  }

  lemma SaveAcksNothing(env: Environment, w: World, name: string, faults: Schedule)
    ensures AcksSoundly(env, w, Save(name), faults)
  {
  }

  lemma PublishAcksSoundly(env: Environment, w: World, input: Input, state: SyncState, latest: Snapshot, faults: Schedule)
    requires Staging(latest.id) in w.dirs && Staged(env, input, latest.id, w.dirs[Staging(latest.id)], |COMPONENTS|)
    ensures AcksSoundly(env, w, Publish(input, state, latest), faults)
  {
    var id := latest.id;
    var w1 := Completed(env, w, RemoveDir(id));
    var remember := Do(Remember(WithRecord(state, latest, input.finishedAt)), Save(input.temps.1));
    assert id != Staging(id);
    if Possible(w1, RenameDir(Staging(id), id)) {
      var w2 := Completed(env, w1, RenameDir(Staging(id), id));
      StagedIsComplete(env, input, id, w.dirs[Staging(id)]);
      assert Published(env, w2, id);
      var w3 := Completed(env, w2, Ack(id));
      var later := faults.Tail().Tail().Tail();
      SaveAcksNothing(env, w3.(memory := WithRecord(state, latest, input.finishedAt)), input.temps.1, later);
      assert AcksSoundly(env, w3, remember, later);
      assert AcksSoundly(env, w2, Do(Ack(id), remember), faults.Tail().Tail());
    }
  }

  function AfterComponent(env: Environment, w: World, input: Input, id: string, c: string): World
    requires Staging(id) in w.dirs
  {
    w.(dirs := w.dirs[Staging(id) := OneStaged(env, input, w.dirs[Staging(id)], c)])
  }

  lemma AfterComponentIsStaged(env: Environment, w: World, input: Input, id: string, i: nat)
    requires Lawful(env.aead) && WellFormed(input)
    requires i < |COMPONENTS| && Staging(id) in w.dirs && Staged(env, input, id, w.dirs[Staging(id)], i)
    requires DigestAccepts(env, id, COMPONENTS[i], input.downloads(COMPONENTS[i]))
    ensures var w' := AfterComponent(env, w, input, id, COMPONENTS[i]);
            Staging(id) in w'.dirs && Staged(env, input, id, w'.dirs[Staging(id)], i + 1)
  {
    StagingOne(env, input, id, w.dirs[Staging(id)], i);
  }

  // One component, the plan going on soundly after it.
  lemma ComponentAcksSoundly(env: Environment, w: World, input: Input, id: string, i: nat, after: Plan, faults: Schedule)
    requires i < |COMPONENTS| && Staging(id) in w.dirs
    requires DigestAccepts(env, id, COMPONENTS[i], input.downloads(COMPONENTS[i])) ==>
               AcksSoundly(env, AfterComponent(env, w, input, id, COMPONENTS[i]),
                           Components(env, input, id, i + 1, after), faults.Tail().Tail().Tail().Tail())
    ensures AcksSoundly(env, w, Components(env, input, id, i, after), faults)
  {
    var c, dir := COMPONENTS[i], Staging(id);
    var bytes, nonce := input.downloads(c), input.nonces(c);
    var rest := Components(env, input, id, i + 1, after);
    var w1 := Completed(env, w, Download(dir, c, bytes));
    var f2, f3 := faults.Tail().Tail(), faults.Tail().Tail().Tail();
    if DigestAccepts(env, id, c, bytes) {
      var encrypt := Encrypt(dir, c, input.password, nonce.0, nonce.1);
      var w2 := Completed(env, w1, encrypt);
      var w3 := Completed(env, w2, DropPlain(dir, c));
      assert w3.dirs == AfterComponent(env, w, input, id, c).dirs;
      assert AcksSoundly(env, w3, rest, f3.Tail());
      assert AcksSoundly(env, w2, Do(DropPlain(dir, c), rest), f3);
      assert AcksSoundly(env, w1, Do(encrypt, Do(DropPlain(dir, c), rest)), f2);
    } else {
      assert AcksSoundly(env, w1, Do(DropPlain(dir, c), Do(Raise, Stop)), f2);
    }
  }

  lemma {:induction false} StagingAcksSoundly(
      env: Environment, w: World, input: Input, state: SyncState, latest: Snapshot, i: nat, faults: Schedule)
    requires Lawful(env.aead) && WellFormed(input) && i <= |COMPONENTS|
    requires Staging(latest.id) in w.dirs && Staged(env, input, latest.id, w.dirs[Staging(latest.id)], i)
    ensures AcksSoundly(env, w, Components(env, input, latest.id, i, Publish(input, state, latest)), faults)
    decreases |COMPONENTS| - i
  {
    var id, after := latest.id, Publish(input, state, latest);
    if i == |COMPONENTS| {
      PublishAcksSoundly(env, w, input, state, latest, faults);
      return;
    }
    if DigestAccepts(env, id, COMPONENTS[i], input.downloads(COMPONENTS[i])) {
      var w' := AfterComponent(env, w, input, id, COMPONENTS[i]);
      AfterComponentIsStaged(env, w, input, id, i);
      StagingAcksSoundly(env, w', input, state, latest, i + 1, faults.Tail().Tail().Tail().Tail());
    }
    ComponentAcksSoundly(env, w, input, id, i, after, faults);
  }

  // From any disk, with any remembered state and under any faults, a run tells the
  // server only of snapshots whose published directory is complete at that moment.
  lemma AttemptAcksSoundly(env: Environment, w: World, input: Input, state: SyncState, faults: Schedule)
    requires Lawful(env.aead) && WellFormed(input)
    ensures AcksSoundly(env, w, Attempt(env, input, state), faults)
  {
    var f1, f2 := faults.Tail(), faults.Tail().Tail();
    var Do(_, rest) := Attempt(env, input, state);
    var ready := Ready(input.listing);
    if ready == [] || CompletedIn(state, Latest(ready).id) {
      SaveAcksNothing(env, w.(memory := rest.op.state), input.temps.1, f1);
    } else {
      var latest := Latest(ready);
      var staging := Staging(latest.id);
      var p := Components(env, input, latest.id, 0, Publish(input, state, latest));
      var w1 := Completed(env, w, RemoveDir(staging));
      var w2 := Completed(env, w1, MakeDir(staging));
      StagingAcksSoundly(env, w2, input, state, latest, 0, f2.Tail().Tail());
      assert AcksSoundly(env, w1, Do(MakeDir(staging), p), f2.Tail());
      assert AcksSoundly(env, w, Do(RemoveDir(staging), Do(MakeDir(staging), p)), f2);
      assert AcksSoundly(env, w, rest, f1);
    }
  }

  // Nothing a run does outside the attempt reaches the server.
  lemma RunAcksSoundly(env: Environment, w: World, input: Input, faults: Schedule)
    requires Lawful(env.aead) && WellFormed(input)
    ensures var starting := Do(Ask, Do(Remember(Started(w, input)), Save(input.temps.0)));
            var begun := Perform(env, w, starting, faults);
            var tried := Perform(env, begun.world, Attempt(env, input, begun.world.memory), begun.faults);
            && AcksSoundly(env, w, starting, faults)
            && AcksSoundly(env, begun.world, Attempt(env, input, begun.world.memory), begun.faults)
            && AcksSoundly(env, tried.world, Do(Remember(Failed(tried.world.memory, input)), Save(input.temps.2)), tried.faults)
  {
    var started := Started(w, input);
    var begun := Perform(env, w, Do(Ask, Do(Remember(started), Save(input.temps.0))), faults);
    var tried := Perform(env, begun.world, Attempt(env, input, begun.world.memory), begun.faults);
    SaveAcksNothing(env, w.(memory := started), input.temps.0, faults.Tail());
    assert AcksSoundly(env, w, Do(Remember(started), Save(input.temps.0)), faults.Tail());
    AttemptAcksSoundly(env, begun.world, input, begun.world.memory, begun.faults);
    SaveAcksNothing(env, tried.world.(memory := Failed(tried.world.memory, input)), input.temps.2, tried.faults);
  }

  // A snapshot newly acknowledged during a run is still published when the run ends.
  lemma AckedMeansPublished(env: Environment, w: World, input: Input, faults: Schedule, id: string)
    requires Lawful(env.aead) && WellFormed(input)
    requires id in Run(env, w, input, faults).world.acked && id !in w.acked
    ensures Published(env, Run(env, w, input, faults).world, id)
  {
    RunHasEffect(env, w, input, faults);
  }

  // A run that ends without an error leaves the latest ready snapshot recorded, and told
  // to the server if it was fetched just now.
  lemma FinishedMeansRecorded(env: Environment, w: World, input: Input, faults: Schedule)
    requires Lawful(env.aead) && WellFormed(input)
    requires Run(env, w, input, faults).end == Finished && Ready(input.listing) != []
    ensures var w' := Run(env, w, input, faults).world;
            var latest := Latest(Ready(input.listing));
            CompletedIn(Load(w'), latest.id) &&
            (Target(w, input).Some? ==>
               latest.id in w'.acked && Load(w').snapshots == Load(w).snapshots[latest.id := NewRecord(input, latest)] &&
               Load(w').lastStatus == Some(StatusOk))
  {
    RunHasEffect(env, w, input, faults);
    BeginRuns(env, w, input, faults);
    var begun := Perform(env, w, Do(Ask, Do(Remember(Started(w, input)), Save(input.temps.0))), faults);
    if Target(w, input).Some? {
      AttemptRuns(env, begun.world, input, Target(w, input).value, begun.faults);
    }
  }

  // What the second run finds ready is nothing, or led by the snapshot the first run saw.
  predicate SameLatest(first: Input, second: Input) {
    Ready(second.listing) != [] ==>
      Ready(first.listing) != [] && Latest(Ready(first.listing)).id == Latest(Ready(second.listing)).id
  }

  // Once the latest snapshot is recorded, another run for it changes status fields only,
  // whatever goes wrong during it.
  lemma RepeatedRunChangesOnlyStatus(env: Environment, w: World, first: Input, faults: Schedule, second: Input, later: Schedule)
    requires Lawful(env.aead) && WellFormed(first) && WellFormed(second) && SameLatest(first, second)
    requires Run(env, w, first, faults).end == Finished
    ensures var w1 := Run(env, w, first, faults).world;
            var w2 := Run(env, w1, second, later).world;
            w2.dirs == w1.dirs && w2.acked == w1.acked && Load(w2).snapshots == Load(w1).snapshots &&
            Load(w2).intervalMinutes == Load(w1).intervalMinutes
  {
    if Ready(first.listing) != [] {
      FinishedMeansRecorded(env, w, first, faults);
    }
    RunHasEffect(env, Run(env, w, first, faults).world, second, later);
  }

  // With no faults a run succeeds exactly when every download matches the manifest,
  // or there is nothing to download; leftovers of earlier crashes never stand in its way.
  lemma QuietRunSucceedsExactly(env: Environment, w: World, input: Input)
    requires Lawful(env.aead) && WellFormed(input)
    ensures Run(env, w, input, Quiet).end == Finished <==>
              Target(w, input) == None || DownloadsMatch(env, input, Target(w, input).value.id)
  {
    BeginRuns(env, w, input, Quiet);
    var w1 := Perform(env, w, Do(Ask, Do(Remember(Started(w, input)), Save(input.temps.0))), Quiet).world;
    var tried := Perform(env, w1, Attempt(env, input, w1.memory), Quiet);
    QuietNeverCrashes(env, w1, Attempt(env, input, w1.memory));
    match Target(w, input)
    case None => IdleAttempt(env, w1, input, Quiet);
    case Some(latest) =>
      AttemptRuns(env, w1, input, latest, Quiet);
      AcceptedDownloadsMatch(env, input, latest.id);
  }
}
