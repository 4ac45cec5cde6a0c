/**
 What a user of the backup can rely on, in plain terms: which bytes a recorded backup
 holds, what one wrong download prevents, and what the state file says after a run
 that met no fault.
 */
module SyncReports {
  import opened Common
  import opened Envelope
  import opened SyncProtocol
  import opened SyncEffects
  import opened SyncSafety
  import opened SyncPublication

  predicate IsComponent(c: string) {
    c == "config" || c == "storage_index" || c == "postgres_dump" || c == "storage_delta"
  }

  lemma ComponentsAre(c: string)
    ensures c in COMPONENTS <==> IsComponent(c)
  {
    assert COMPONENTS[0] == "config" && COMPONENTS[1] == "storage_index";
    assert COMPONENTS[2] == "postgres_dump" && COMPONENTS[3] == "storage_delta";
  }

  ghost predicate DecryptsTo(env: Environment, file: Bytes, digest: string) {
    exists password :: Parse(env.aead, password, file).Ok? && env.sha256(Parse(env.aead, password, file).value) == digest
  }

  // After any runs, a component recorded with a digest decrypts to bytes of that digest.
  lemma RecordedDigestsHold(env: Environment, w: World, runs: seq<Attempted>, id: string, c: string, digest: string)
    requires Lawful(env.aead) && Safe(env, w) && forall r <- runs :: WellFormed(r.input)
    requires id in Load(History(env, w, runs)).snapshots && Load(History(env, w, runs)).snapshots[id].completedAt.Some?
    requires IsComponent(c) && env.manifest(id, c) == Some(digest) && digest != ""
    ensures var w' := History(env, w, runs);
            id in w'.dirs && c + ".snbk" in w'.dirs[id] && DecryptsTo(env, w'.dirs[id][c + ".snbk"], digest)
  {
    var w' := History(env, w, runs);
    HistoryIsSafe(env, w, runs);
    ComponentsAre(c);
    assert RecordHolds(env, w', id, Load(w').snapshots[id]);
    var password :| CompleteUnder(env, id, w'.dirs[id], password);
    assert Sealed(c) in SealedNames();
    assert GoodFile(env, id, c, password, w'.dirs[id][Sealed(c)]);
    assert Parse(env.aead, password, w'.dirs[id][Sealed(c)]).Ok?;
  }

  // And it holds those four files, the path of each on record, and nothing else.
  lemma RecordedFilesAreFour(env: Environment, w: World, runs: seq<Attempted>, id: string, name: string)
    requires Lawful(env.aead) && Safe(env, w) && forall r <- runs :: WellFormed(r.input)
    requires id in Load(History(env, w, runs)).snapshots && Load(History(env, w, runs)).snapshots[id].completedAt.Some?
    ensures var w' := History(env, w, runs);
            && id in w'.dirs
            && (name in w'.dirs[id] <==> exists c :: IsComponent(c) && name == c + ".snbk")
            && (forall c :: IsComponent(c) ==>
                  var paths := Load(w').snapshots[id].encryptedFiles;
                  c in paths && paths[c] == id + "/" + (c + ".snbk"))
  {
    var w' := History(env, w, runs);
    HistoryIsSafe(env, w, runs);
    assert RecordHolds(env, w', id, Load(w').snapshots[id]);
    var password :| CompleteUnder(env, id, w'.dirs[id], password);
    assert name in w'.dirs[id] <==> name in SealedNames();
    forall c
      ensures c in COMPONENTS <==> IsComponent(c)
    {
      ComponentsAre(c);
    }
    assert name in SealedNames() <==> exists c :: c in COMPONENTS && name == Sealed(c);
  }

  lemma MismatchNeverFinishes(env: Environment, w: World, input: Input, faults: Schedule)
    requires Lawful(env.aead) && WellFormed(input) && Target(w, input).Some?
    requires !DownloadsMatch(env, input, Target(w, input).value.id)
    ensures Run(env, w, input, faults).end != Finished
  {
    BeginRuns(env, w, input, faults);
    var begun := Perform(env, w, Do(Ask, Do(Remember(Started(w, input)), Save(input.temps.0))), faults);
    if begun.end == Finished {
      AcceptedDownloadsMatch(env, input, Target(w, input).value.id);
      AttemptRuns(env, begun.world, input, Target(w, input).value, begun.faults);
    }
  }

  // One download with the wrong digest, and the run publishes, acknowledges and records
  // nothing, whatever else happens in it.
  lemma OneWrongDownloadIsEnough(env: Environment, w: World, input: Input, faults: Schedule, c: string, digest: string)
    requires Lawful(env.aead) && WellFormed(input) && Target(w, input).Some? && IsComponent(c)
    requires env.manifest(Target(w, input).value.id, c) == Some(digest) && digest != ""
    requires env.sha256(input.downloads(c)) != digest
    ensures var w' := Run(env, w, input, faults).world;
            var id := Target(w, input).value.id;
            && (id in w'.dirs <==> id in w.dirs) && (id in w.dirs ==> w'.dirs[id] == w.dirs[id])
            && w'.acked == w.acked && Load(w').snapshots == Load(w).snapshots
            && Run(env, w, input, faults).end != Finished
  {
    ComponentsAre(c);
    assert !MatchesManifest(env, Target(w, input).value.id, c, input.downloads(c));
    MismatchLeavesPublished(env, w, input, faults);
    MismatchNeverFinishes(env, w, input, faults);
  }

  // --- what the state file says -------------------------------------------------

  // The state a run that met no fault leaves in the file, from the one it found.
  ghost predicate Reports(env: Environment, found: SyncState, input: Input, saved: SyncState) {
    var ready := Ready(input.listing);
    var begun := found.(lastStartedAt := Some(input.startedAt), lastCompletedAt := Some(input.finishedAt));
    if ready == [] then
      saved == begun.(lastStatus := Some(StatusOk), lastError := None)
    else
      exists i: nat ::
        LastGreatest(ready, i) &&
        var s := ready[i];
        var seen := begun.(lastStatus := Some(StatusOk), lastSnapshotId := Some(s.id), lastSnapshotSequence := Some(s.sequence));
        if s.id in found.snapshots && found.snapshots[s.id].completedAt.Some? then
          saved == seen  // an error noted earlier stays noted
        else if DownloadsMatch(env, input, s.id) then
          && saved == seen.(lastError := None, snapshots := saved.snapshots)
          && saved.snapshots == found.snapshots[s.id := NewRecord(input, s)]
        else
          saved == begun.(lastStatus := Some(StatusFailed), lastError := Some(input.errorText))
  }

  lemma IdleRunSaves(env: Environment, w: World, input: Input)
    requires Loaded(w) && Target(w, input) == None
    ensures var o := Perform(env, w, Attempt(env, input, w.memory), Quiet);
            var ready := Ready(input.listing);
            var done := w.memory.(lastStatus := Some(StatusOk), lastCompletedAt := Some(input.finishedAt));
            o.end == Finished &&
            o.world.stateFile == Some(
              if ready == [] then done.(lastError := None)
              else done.(lastSnapshotId := Some(Latest(ready).id), lastSnapshotSequence := Some(Latest(ready).sequence)))
  {
    var Do(_, Do(remember, save)) := Attempt(env, input, w.memory);
    SaveIsAtomic(env, w.(memory := remember.state), input.temps.1, Quiet);
    assert Perform(env, w, Do(Ask, Do(remember, save)), Quiet)
        == Perform(env, w, Do(remember, save), Quiet)
        == Perform(env, w.(memory := remember.state), save, Quiet);
  }

  lemma FailedRunSaves(env: Environment, w: World, input: Input, latest: Snapshot)
    requires Lawful(env.aead) && WellFormed(input) && Loaded(w) && Target(w, input) == Some(latest)
    requires !DownloadsMatch(env, input, latest.id)
    ensures var tried := Perform(env, w, Attempt(env, input, w.memory), Quiet);
            var noted := Perform(env, tried.world, Do(Remember(Failed(tried.world.memory, input)), Save(input.temps.2)), tried.faults);
            tried.end == Threw && noted.world.stateFile == Some(Failed(w.memory, input))
  {
    var tried := Perform(env, w, Attempt(env, input, w.memory), Quiet);
    QuietNeverCrashes(env, w, Attempt(env, input, w.memory));
    AcceptedDownloadsMatch(env, input, latest.id);
    AttemptRuns(env, w, input, latest, Quiet);
    SaveIsAtomic(env, tried.world.(memory := Failed(w.memory, input)), input.temps.2, Quiet);
  }

  lemma QuietRunReports(env: Environment, w: World, input: Input)
    requires Lawful(env.aead) && WellFormed(input)
    ensures var w' := Run(env, w, input, Quiet).world;
            w'.stateFile.Some? && Reports(env, Load(w), input, w'.stateFile.value)
  {
    BeginRuns(env, w, input, Quiet);
    var w1 := Perform(env, w, Do(Ask, Do(Remember(Started(w, input)), Save(input.temps.0))), Quiet).world;
    var ready := Ready(input.listing);
    if ready != [] {
      var i := LatestIsListed(ready);
    }
    match Target(w, input)
    case None => IdleRunSaves(env, w1, input);
    case Some(latest) =>
      AcceptedDownloadsMatch(env, input, latest.id);
      AttemptRuns(env, w1, input, latest, Quiet);
      if !DownloadsMatch(env, input, latest.id) {
        FailedRunSaves(env, w1, input, latest);
      }
  }
}
