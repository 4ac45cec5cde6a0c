/**
 "A published directory is always complete" holds of a sync run exactly when the
 run does not fetch a snapshot whose directory is already there, unrecorded. Then
 the old directory is removed first, file by file, and a crash in the middle of
 that leaves a published directory with components missing. "An acknowledged
 snapshot stays published" fails the same way, when that snapshot was acknowledged.
 A run that crashes after the rename leaves just such a disk to the next one.
 */
module SyncPublication {
  import opened Common
  import opened Envelope
  import opened SyncProtocol
  import opened SyncEffects
  import opened SyncSafety

  ghost predicate PublishedComplete(env: Environment, w: World) {
    forall dir <- w.dirs :: IsId(dir) ==> CompleteDir(env, dir, w.dirs[dir])
  }

  // The run downloads a snapshot again over an earlier, unrecorded publication of it.
  predicate Republishes(env: Environment, w: World, input: Input) {
    var target := Target(w, input);
    target.Some? && target.value.id in w.dirs && DownloadsMatch(env, input, target.value.id)
  }

  // A run whose downloads do not all match never gets as far as touching the published
  // name, the server or the records.
  lemma MismatchLeavesPublished(env: Environment, w: World, input: Input, faults: Schedule)
    requires Lawful(env.aead) && WellFormed(input) && Target(w, input).Some?
    requires !DownloadsMatch(env, input, Target(w, input).value.id)
    ensures var id := Target(w, input).value.id;
            var w' := Run(env, w, input, faults).world;
            w'.dirs - {Staging(id)} == w.dirs - {Staging(id)} &&
            (id in w'.dirs <==> id in w.dirs) && (id in w.dirs ==> w'.dirs[id] == w.dirs[id]) &&
            w'.acked == w.acked && Load(w').snapshots == Load(w).snapshots
  {
    var latest := Target(w, input).value;
    BeginRuns(env, w, input, faults);
    var begun := Perform(env, w, Do(Ask, Do(Remember(Started(w, input)), Save(input.temps.0))), faults);
    if begun.end == Finished {
      var w1 := begun.world;
      var tried := Perform(env, w1, Attempt(env, input, w1.memory), begun.faults);
      AcceptedDownloadsMatch(env, input, latest.id);
      AttemptRuns(env, w1, input, latest, begun.faults);
      NoteFailure(env, tried.world, input, tried.faults);
    }
    var w' := Run(env, w, input, faults).world;
    UntouchedDir(w, w.(dirs := w'.dirs), latest.id);
  }

  lemma RunPublishesComplete(env: Environment, w: World, input: Input, faults: Schedule)
    requires Lawful(env.aead) && WellFormed(input) && PublishedComplete(env, w) && !Republishes(env, w, input)
    ensures PublishedComplete(env, Run(env, w, input, faults).world)
  {
    var w' := Run(env, w, input, faults).world;
    RunHasEffect(env, w, input, faults);
    if Target(w, input).Some? {
      var latest := Target(w, input).value;
      TargetIsId(w, input);
      forall dir | dir in w'.dirs && IsId(dir)
        ensures CompleteDir(env, dir, w'.dirs[dir])
      {
        if dir != latest.id {
          OtherDirsStay(w, w', latest, dir);
        } else if dir in w.dirs {
          MismatchLeavesPublished(env, w, input, faults);
        } else {
          assert CompleteUnder(env, dir, w'.dirs[dir], input.password);
        }
      }
    }
  }

  // --- the crash that breaks it ---------------------------------------------

  function FinePrefix(n: nat, rest: Schedule): Schedule {
    if n == 0 then rest else Upcoming(Fine, FinePrefix(n - 1, rest))
  }

  lemma FourFine(rest: Schedule)
    ensures FinePrefix(4, rest) == Upcoming(Fine, FinePrefix(3, rest))
    ensures FinePrefix(3, rest) == Upcoming(Fine, FinePrefix(2, rest))
    ensures FinePrefix(2, rest) == Upcoming(Fine, FinePrefix(1, rest))
    ensures FinePrefix(1, rest) == Upcoming(Fine, rest)
  {
    assert FinePrefix(0, rest) == rest;
  }

  lemma StagingStepReaches(env: Environment, w: World, input: Input, id: string, i: nat, after: Plan, rest: Schedule)
    returns (w': World)
    requires i < |COMPONENTS| && Staging(id) in w.dirs
    requires DigestAccepts(env, id, COMPONENTS[i], input.downloads(COMPONENTS[i]))
    ensures Touches(w, w', id) && Staging(id) in w'.dirs
    ensures Perform(env, w, Components(env, input, id, i, after), FinePrefix(4, rest))
            == Perform(env, w', Components(env, input, id, i + 1, after), rest)
  {
    var c, dir := COMPONENTS[i], Staging(id);
    var nonce := input.nonces(c);
    var next := Components(env, input, id, i + 1, after);
    var download, drop := Download(dir, c, input.downloads(c)), DropPlain(dir, c);
    var encrypt := Encrypt(dir, c, input.password, nonce.0, nonce.1);
    var p4 := Do(drop, next);
    var p3 := Do(encrypt, p4);
    var p2 := Do(download, p3);
    assert Components(env, input, id, i, after) == Do(Ask, p2);
    var f1 := FinePrefix(1, rest);
    var f2, f3 := FinePrefix(2, rest), FinePrefix(3, rest);
    FourFine(rest);
    assert Perform(env, w, Do(Ask, p2), FinePrefix(4, rest)) == Perform(env, w, p2, f3);
    var w2 := Completed(env, w, download);
    assert Perform(env, w, p2, f3) == Perform(env, w2, p3, f2);
    var w3 := Completed(env, w2, encrypt);
    assert Perform(env, w2, p3, f2) == Perform(env, w3, p4, f1);
    w' := Completed(env, w3, drop);
    assert Perform(env, w3, p4, f1) == Perform(env, w', next, rest);
    assert w'.dirs - {dir} == w.dirs - {dir};
  }

  lemma FineSplits(m: nat, n: nat, rest: Schedule)
    ensures FinePrefix(m, FinePrefix(n, rest)) == FinePrefix(m + n, rest)
  {
  }

  lemma {:induction false} StagingReaches(env: Environment, w: World, input: Input, id: string, i: nat, after: Plan, rest: Schedule)
    returns (w': World)
    requires i <= |COMPONENTS| && Staging(id) in w.dirs && AllAccepted(env, input, id, i)
    ensures Touches(w, w', id) && Staging(id) in w'.dirs
    ensures Perform(env, w, Components(env, input, id, i, after), FinePrefix(4 * (|COMPONENTS| - i), rest))
            == Perform(env, w', after, rest)
    decreases |COMPONENTS| - i
  {
    if i == |COMPONENTS| {
      return w;
    }
    var left := 4 * (|COMPONENTS| - (i + 1));
    FineSplits(4, left, rest);
    var w1 := StagingStepReaches(env, w, input, id, i, after, FinePrefix(left, rest));
    w' := StagingReaches(env, w1, input, id, i + 1, after, rest);
    TouchesTwice(w, w1, w', id);
  }

  // Four steps to prepare and sixteen to stage, and the run comes to publish.
  function AttemptPrefix(rest: Schedule): Schedule {
    FinePrefix(4, FinePrefix(16, rest))
  }

  // And three before those, to begin.
  function RunPrefix(rest: Schedule): Schedule {
    FinePrefix(3, AttemptPrefix(rest))
  }

  lemma PreparationReaches(env: Environment, w: World, input: Input, latest: Snapshot, f: Schedule) returns (w': World)
    requires Loaded(w) && Target(w, input) == Some(latest)
    ensures Touches(w, w', latest.id) && Staging(latest.id) in w'.dirs
    ensures Perform(env, w, Attempt(env, input, w.memory), FinePrefix(4, f))
            == Perform(env, w', Components(env, input, latest.id, 0, Publish(input, w.memory, latest)), f)
  {
    var staging := Staging(latest.id);
    var p4 := Components(env, input, latest.id, 0, Publish(input, w.memory, latest));
    var p3 := Do(MakeDir(staging), p4);
    var p2 := Do(RemoveDir(staging), p3);
    var f1, f2, f3 := FinePrefix(1, f), FinePrefix(2, f), FinePrefix(3, f);
    FourFine(f);
    assert Attempt(env, input, w.memory) == Do(Ask, Do(Ask, p2));
    assert Perform(env, w, Do(Ask, Do(Ask, p2)), FinePrefix(4, f)) == Perform(env, w, Do(Ask, p2), f3);
    assert Perform(env, w, Do(Ask, p2), f3) == Perform(env, w, p2, f2);
    var w1 := Completed(env, w, RemoveDir(staging));
    assert Perform(env, w, p2, f2) == Perform(env, w1, p3, f1);
    w' := Completed(env, w1, MakeDir(staging));
    assert Perform(env, w1, p3, f1) == Perform(env, w', p4, f);
    assert w'.dirs - {staging} == w.dirs - {staging};
  }

  lemma AttemptReaches(env: Environment, w: World, input: Input, latest: Snapshot, rest: Schedule) returns (w': World)
    requires WellFormed(input) && Loaded(w) && Target(w, input) == Some(latest)
    requires DownloadsMatch(env, input, latest.id)
    ensures Touches(w, w', latest.id) && Staging(latest.id) in w'.dirs
    ensures Perform(env, w, Attempt(env, input, w.memory), AttemptPrefix(rest))
            == Perform(env, w', Publish(input, w.memory, latest), rest)
  {
    AcceptedDownloadsMatch(env, input, latest.id);
    var w1 := PreparationReaches(env, w, input, latest, FinePrefix(16, rest));
    w' := StagingReaches(env, w1, input, latest.id, 0, Publish(input, w.memory, latest), rest);
    TouchesTwice(w, w1, w', latest.id);
  }

  // A run that meets no fault in its first three steps has marked its start.
  lemma RunReaches(env: Environment, w: World, input: Input, rest: Schedule) returns (w': World)
    ensures Loaded(w') && w'.memory == Started(w, input) && w'.dirs == w.dirs && w'.acked == w.acked
    ensures Target(w', input) == Target(w, input)
    ensures var tried := Perform(env, w', Attempt(env, input, w'.memory), rest);
            tried.end == Crashed ==> Run(env, w, input, FinePrefix(3, rest)) == tried
  {
    var started := Started(w, input);
    var f1, f2 := FinePrefix(1, rest), FinePrefix(2, rest);
    FourFine(rest);
    var w1 := w.(memory := started);
    var w2 := Completed(env, w1, WriteTemp(input.temps.0));
    w' := Completed(env, w2, RenameTemp(input.temps.0));
    assert Perform(env, w, Do(Ask, Do(Remember(started), Save(input.temps.0))), FinePrefix(3, rest))
        == Perform(env, w, Do(Remember(started), Save(input.temps.0)), f2)
        == Perform(env, w1, Save(input.temps.0), f2);
    assert Perform(env, w1, Save(input.temps.0), f2) == Perform(env, w2, Do(RenameTemp(input.temps.0), Stop), f1);
    assert Perform(env, w2, Do(RenameTemp(input.temps.0), Stop), f1) == Outcome(w', Finished, rest);
  }

  // The process dies while the old directory is being removed, one file already gone.
  const MID_REMOVAL: Schedule := Upcoming(Crash(Debris([], {Sealed(COMPONENTS[0])}, false)), Quiet)

  const BREAKING: Schedule := RunPrefix(MID_REMOVAL)

  lemma RepublishingCanBreak(env: Environment, w: World, input: Input)
    requires WellFormed(input) && Republishes(env, w, input)
    ensures var id, w' := Target(w, input).value.id, Run(env, w, input, BREAKING).world;
            IsId(id) && id in w'.dirs && !CompleteDir(env, id, w'.dirs[id]) && w'.acked == w.acked
  {
    var latest := Target(w, input).value;
    TargetIsId(w, input);
    var w1 := RunReaches(env, w, input, AttemptPrefix(MID_REMOVAL));
    var w2 := AttemptReaches(env, w1, input, latest, MID_REMOVAL);
    UntouchedDir(w1, w2, latest.id);
    assert Sealed(COMPONENTS[0]) in SealedNames();
  }

  lemma PublicationIsCompleteExactly(env: Environment, w: World, input: Input)
    requires Lawful(env.aead) && WellFormed(input) && PublishedComplete(env, w)
    ensures (forall faults :: PublishedComplete(env, Run(env, w, input, faults).world)) <==> !Republishes(env, w, input)
  {
    if Republishes(env, w, input) {
      RepublishingCanBreak(env, w, input);
      assert !PublishedComplete(env, Run(env, w, input, BREAKING).world);
    } else {
      forall faults
        ensures PublishedComplete(env, Run(env, w, input, faults).world)
      {
        RunPublishesComplete(env, w, input, faults);
      }
    }
  }

  // --- acknowledged snapshots -------------------------------------------------

  ghost predicate AckedPublished(env: Environment, w: World) {
    forall id <- w.acked :: IsId(id) && Published(env, w, id)
  }

  lemma RunKeepsAckedPublished(env: Environment, w: World, input: Input, faults: Schedule)
    requires Lawful(env.aead) && WellFormed(input) && AckedPublished(env, w)
    requires !(Republishes(env, w, input) && Target(w, input).value.id in w.acked)
    ensures AckedPublished(env, Run(env, w, input, faults).world)
  {
    var w' := Run(env, w, input, faults).world;
    RunHasEffect(env, w, input, faults);
    forall id | id in w'.acked
      ensures IsId(id) && Published(env, w', id)
    {
      if Target(w, input).Some? {
        TargetIsId(w, input);
        var latest := Target(w, input).value;
        if id != latest.id {
          OtherDirsStay(w, w', latest, id);
        } else if id in w.acked {
          MismatchLeavesPublished(env, w, input, faults);
        } else {
          AckedMeansPublished(env, w, input, faults, id);
        }
      }
    }
  }

  // Acknowledged snapshots stay published whatever faults a run meets, unless it
  // fetches an acknowledged one again over its unrecorded directory.
  lemma AckedStaysPublishedExactly(env: Environment, w: World, input: Input)
    requires Lawful(env.aead) && WellFormed(input) && AckedPublished(env, w)
    ensures (forall faults :: AckedPublished(env, Run(env, w, input, faults).world)) <==>
              !(Republishes(env, w, input) && Target(w, input).value.id in w.acked)
  {
    if Republishes(env, w, input) && Target(w, input).value.id in w.acked {
      RepublishingCanBreak(env, w, input);
      assert !AckedPublished(env, Run(env, w, input, BREAKING).world);
    } else {
      forall faults
        ensures AckedPublished(env, Run(env, w, input, faults).world)
      {
        RunKeepsAckedPublished(env, w, input, faults);
      }
    }
  }

  // --- how such a disk comes about ----------------------------------------------

  // The process dies at the acknowledgement, after the rename; the request may have arrived.
  function AtAck(reached: bool): Schedule {
    FinePrefix(2, Upcoming(Crash(Debris([], {}, reached)), Quiet))
  }

  lemma PublishStopsAtAck(env: Environment, w: World, input: Input, latest: Snapshot, reached: bool)
    requires Staging(latest.id) in w.dirs
    ensures var o := Perform(env, w, Publish(input, w.memory, latest), AtAck(reached));
            && o.end == Crashed && latest.id in o.world.dirs
            && o.world.stateFile == w.stateFile && o.world.memory == w.memory
            && o.world.acked == w.acked + (if reached then {latest.id} else {})
  {
    var id, staging := latest.id, Staging(latest.id);
    var crash := Upcoming(Crash(Debris([], {}, reached)), Quiet);
    var Do(_, Do(_, acking)) := Publish(input, w.memory, latest);
    FourFine(crash);
    assert id != staging;
    var w1 := Completed(env, w, RemoveDir(id));
    var w2 := Completed(env, w1, RenameDir(staging, id));
    assert Perform(env, w, Publish(input, w.memory, latest), AtAck(reached))
        == Perform(env, w1, Do(RenameDir(staging, id), acking), FinePrefix(1, crash))
        == Perform(env, w2, acking, crash);
  }

  // Any run that fetches a new snapshot can leave it published, unrecorded and perhaps
  // acknowledged: everything is still complete, and the next run will fetch it again.
  lemma CrashLeavesRepublishing(env: Environment, w: World, input: Input, reached: bool)
    requires Lawful(env.aead) && WellFormed(input) && PublishedComplete(env, w)
    requires Target(w, input).Some? && Target(w, input).value.id !in w.dirs
    requires DownloadsMatch(env, input, Target(w, input).value.id)
    ensures var w' := Run(env, w, input, RunPrefix(AtAck(reached))).world;
            && PublishedComplete(env, w') && Republishes(env, w', input)
            && Target(w', input) == Target(w, input)
            && (reached ==> Target(w, input).value.id in w'.acked)
  {
    var latest := Target(w, input).value;
    var w1 := RunReaches(env, w, input, AttemptPrefix(AtAck(reached)));
    var w2 := AttemptReaches(env, w1, input, latest, AtAck(reached));
    PublishStopsAtAck(env, w2, input, latest, reached);
    RunPublishesComplete(env, w, input, RunPrefix(AtAck(reached)));
  }

  // So two runs, the second a retry of the first, can end with an acknowledged snapshot
  // whose published directory is not complete.
  lemma RetryCanBreakAnAckedSnapshot(env: Environment, w: World, input: Input)
    requires Lawful(env.aead) && WellFormed(input) && PublishedComplete(env, w)
    requires Target(w, input).Some? && Target(w, input).value.id !in w.dirs
    requires DownloadsMatch(env, input, Target(w, input).value.id)
    ensures var id := Target(w, input).value.id;
            var w' := History(env, w, [Attempted(input, RunPrefix(AtAck(true))), Attempted(input, BREAKING)]);
            id in w'.acked && id in w'.dirs && !CompleteDir(env, id, w'.dirs[id])
  {
    var first, retry := Attempted(input, RunPrefix(AtAck(true))), Attempted(input, BREAKING);
    CrashLeavesRepublishing(env, w, input, true);
    var w1 := Run(env, w, input, first.faults).world;
    RepublishingCanBreak(env, w1, input);
    assert [first, retry][1..] == [retry] && [retry][1..] == [];
    var w2 := Run(env, w1, input, retry.faults).world;
    assert History(env, w1, [retry]) == History(env, w2, []) == w2;
  }
}
