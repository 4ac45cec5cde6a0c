/**
 What one sync run can have done to the backups directory, the state file and the
 server by the time it ends, throws or crashes (`RunHasEffect`).
 */
module SyncEffects {
  import opened Common
  import opened Envelope
  import opened SyncProtocol

  function SealedNames(): set<string> {
    set c | c in COMPONENTS :: Sealed(c)
  }

  // What a recorded digest promises about a component's bytes; an absent or empty one
  // promises nothing.
  predicate MatchesManifest(env: Environment, id: string, component: string, bytes: Bytes) {
    match env.manifest(id, component)
    case Some(digest) => digest != "" ==> env.sha256(bytes) == digest
    case None => true
  }

  predicate DownloadsMatch(env: Environment, input: Input, id: string) {
    forall c <- COMPONENTS :: MatchesManifest(env, id, c, input.downloads(c))
  }

  // A component file that decrypts to bytes with the manifest's digest.
  predicate GoodFile(env: Environment, id: string, component: string, password: string, file: Bytes) {
    var plain := Parse(env.aead, password, file);
    plain.Ok? && MatchesManifest(env, id, component, plain.value)
  }

  ghost predicate CompleteUnder(env: Environment, id: string, files: Files, password: string) {
    && files.Keys == SealedNames()
    && forall c <- COMPONENTS :: GoodFile(env, id, c, password, files[Sealed(c)])
  }

  // Exactly the four encrypted components, all under one password.
  ghost predicate CompleteDir(env: Environment, id: string, files: Files) {
    exists password :: CompleteUnder(env, id, files, password)
  }

  ghost predicate WellFormed(input: Input) {
    && (forall s <- input.listing :: IsId(s.id))
    && (forall c :: |input.nonces(c).0| == SALT_LEN && |input.nonces(c).1| == IV_LEN)
  }

  // --- names --------------------------------------------------------------

  lemma RecordedPathIsFinal(id: string, c: string)
    ensures RecordedPath(id, c) == id + "/" + Sealed(c)
  {
    var text := Staging(id) + "/" + Sealed(c);
    assert text[..|Staging(id)|] == Staging(id);
    assert text[|Staging(id)|..] == "/" + Sealed(c);
    assert id + ("/" + Sealed(c)) == id + "/" + Sealed(c);
  }

  lemma NamesDiffer(c: string, d: string)
    ensures Plain(c) != Sealed(d)
    ensures Sealed(c) == Sealed(d) ==> c == d
  {
    assert Plain(c)[|Plain(c)| - 1] == 'n';
    assert Sealed(d)[|Sealed(d)| - 1] == 'k';
    if Sealed(c) == Sealed(d) {
      assert Sealed(c)[..|Sealed(c)| - 5] == c;
      assert Sealed(d)[..|Sealed(d)| - 5] == d;
    }
  }

  // The last of those with the greatest sequence.
  predicate LastGreatest(ready: seq<Snapshot>, i: nat) {
    && i < |ready|
    && (forall j :: 0 <= j < i ==> ready[j].sequence <= ready[i].sequence)
    && (forall j :: i < j < |ready| ==> ready[j].sequence < ready[i].sequence)
  }

  lemma {:induction false} LatestIsListed(ready: seq<Snapshot>) returns (i: nat)
    requires ready != []
    ensures LastGreatest(ready, i) && Latest(ready) == ready[i]
  {
    i := |ready| - 1;
    if |ready| > 1 {
      var front := ready[..|ready| - 1];
      var k := LatestIsListed(front);
      if ready[k].sequence > ready[i].sequence {
        i := k;
      }
      assert forall j :: 0 <= j < |front| ==> front[j] == ready[j];
    }
  }

  lemma ReadyIsListed(listing: seq<Snapshot>)
    ensures forall s :: s in Ready(listing) <==> s in listing && s.ready
  {
  }

  // --- saving -------------------------------------------------------------

  // Whatever happens, the state file holds either what it held or the whole new state.
  lemma SaveIsAtomic(env: Environment, w: World, name: string, faults: Schedule)
    ensures var o := Perform(env, w, Save(name), faults);
            && o.world == w.(stateFile := o.world.stateFile, temps := o.world.temps)
            && (o.world.stateFile == w.stateFile || o.world.stateFile == Some(w.memory))
            && (o.end == Finished ==> o.world.stateFile == Some(w.memory))
            && (faults.Quiet? ==> o.end == Finished && o.faults == Quiet)
  {
    if faults.Head() == Fine {
      var w1 := Completed(env, w, WriteTemp(name));
      var rest := Do(RenameTemp(name), Stop);
      assert Perform(env, w, Save(name), faults) == Perform(env, w1, rest, faults.Tail());
      if faults.Tail().Head() == Fine {
        var w2 := Completed(env, w1, RenameTemp(name));
        assert Perform(env, w1, rest, faults.Tail()) == Outcome(w2, Finished, faults.Tail().Tail());
      }
    }
  }

  // --- staging ------------------------------------------------------------

  // Only the staging directory of one snapshot may differ.
  ghost predicate Touches(w: World, w': World, id: string) {
    w' == w.(dirs := w'.dirs) && w'.dirs - {Staging(id)} == w.dirs - {Staging(id)}
  }

  lemma TouchesTwice(w: World, w1: World, w2: World, id: string)
    requires Touches(w, w1, id) && Touches(w1, w2, id)
    ensures Touches(w, w2, id)
  {
  }

  ghost predicate Staged(env: Environment, input: Input, id: string, files: Files, i: nat)
    requires i <= |COMPONENTS|
  {
    && (forall name :: name in files <==> exists j :: 0 <= j < i && name == Sealed(COMPONENTS[j]))
    && forall j :: 0 <= j < i ==> GoodFile(env, id, COMPONENTS[j], input.password, files[Sealed(COMPONENTS[j])])
  }

  function Envelope'(env: Environment, input: Input, c: string): Bytes {
    Print(env.aead, input.password, input.nonces(c).0, input.nonces(c).1, input.downloads(c))
  }

  // What the four steps of one component make of the staging directory.
  function OneStaged(env: Environment, input: Input, files: Files, c: string): Files {
    files[Plain(c) := input.downloads(c)][Sealed(c) := Envelope'(env, input, c)] - {Plain(c)}
  }

  lemma ComponentsAreDistinct(i: nat, j: nat)
    requires i < |COMPONENTS| && j < |COMPONENTS| && i != j
    ensures COMPONENTS[i] != COMPONENTS[j]
  {
    assert COMPONENTS[0][0] == 'c' && COMPONENTS[2][0] == 'p';
    assert COMPONENTS[1][8] == 'i' && COMPONENTS[3][8] == 'd';
  }

  // Neither name of the component being staged is in use yet.
  lemma NamesAreFree(env: Environment, input: Input, id: string, files: Files, i: nat)
    requires i < |COMPONENTS| && Staged(env, input, id, files, i)
    ensures Plain(COMPONENTS[i]) !in files && Sealed(COMPONENTS[i]) !in files
  {
    var c := COMPONENTS[i];
    forall j | 0 <= j < i
      ensures Sealed(COMPONENTS[j]) != Plain(c) && Sealed(COMPONENTS[j]) != Sealed(c)
    {
      NamesDiffer(c, COMPONENTS[j]);
      NamesDiffer(COMPONENTS[j], c);
      ComponentsAreDistinct(i, j);
    }
  }

  lemma OneMoreStaged(env: Environment, input: Input, id: string, files: Files, i: nat, sealed: Bytes)
    requires i < |COMPONENTS| && Staged(env, input, id, files, i)
    requires GoodFile(env, id, COMPONENTS[i], input.password, sealed)
    ensures Staged(env, input, id, files[Sealed(COMPONENTS[i]) := sealed], i + 1)
  {
    NamesAreFree(env, input, id, files, i);
  }

  lemma StagingOne(env: Environment, input: Input, id: string, files: Files, i: nat)
    requires Lawful(env.aead) && WellFormed(input)
    requires i < |COMPONENTS| && Staged(env, input, id, files, i)
    requires DigestAccepts(env, id, COMPONENTS[i], input.downloads(COMPONENTS[i]))
    ensures Staged(env, input, id, OneStaged(env, input, files, COMPONENTS[i]), i + 1)
  {
    var c := COMPONENTS[i];
    var sealed := Envelope'(env, input, c);
    NamesDiffer(c, c);
    NamesAreFree(env, input, id, files, i);
    assert OneStaged(env, input, files, c) == files[Sealed(c) := sealed];
    DecryptInvertsEncrypt(env.aead, input.password, input.nonces(c).0, input.nonces(c).1, input.downloads(c));
    OneMoreStaged(env, input, id, files, i, sealed);
  }

  // What is left of one component once its download is in the staging directory.
  function AfterDownload(dir: string, input: Input, c: string, accepted: bool, rest: Plan): Plan {
    if accepted then Do(Encrypt(dir, c, input.password, input.nonces(c).0, input.nonces(c).1), Do(DropPlain(dir, c), rest))
    else Do(DropPlain(dir, c), Do(Raise, Stop))
  }

  lemma SealOrDrop(env: Environment, w: World, input: Input, id: string, c: string, accepted: bool, rest: Plan, faults: Schedule)
    returns (w': World, later: Schedule, through: bool)
    requires Staging(id) in w.dirs && Plain(c) in w.dirs[Staging(id)] && w.dirs[Staging(id)][Plain(c)] == input.downloads(c)
    ensures Touches(w, w', id)
    ensures var o := Perform(env, w, AfterDownload(Staging(id), input, c, accepted, rest), faults);
            if through then
              && accepted && o == Perform(env, w', rest, later)
              && w'.dirs == w.dirs[Staging(id) := w.dirs[Staging(id)][Sealed(c) := Envelope'(env, input, c)] - {Plain(c)}]
            else o.world == w' && o.end != Finished
    ensures faults.Quiet? ==> later.Quiet? && (through <==> accepted)
  {
    var dir := Staging(id);
    var encrypt, drop := Encrypt(dir, c, input.password, input.nonces(c).0, input.nonces(c).1), DropPlain(dir, c);
    var plan := AfterDownload(dir, input, c, accepted, rest);
    var f2 := faults.Tail();
    w', later, through := w, f2.Tail(), false;
    if faults.Head() == Fine && accepted {
      var w2 := Completed(env, w, encrypt);
      assert Perform(env, w, plan, faults) == Perform(env, w2, Do(drop, rest), f2);
      w' := w2;
      if f2.Head() == Fine {
        w' := Completed(env, w2, drop);
        assert Perform(env, w2, Do(drop, rest), f2) == Perform(env, w', rest, later);
        through := true;
      }
    } else if faults.Head() == Fine {
      w' := Completed(env, w, drop);
      assert Perform(env, w, plan, faults) == Perform(env, w', Do(Raise, Stop), f2);
    } else if accepted {
      w' := Interrupted(w, encrypt, faults.Head().debris);
    }
    assert w'.dirs - {dir} == w.dirs - {dir};
  }

  // One component: its four steps complete, or the run ends with only the staging
  // directory touched.
  lemma StagingStep(env: Environment, w: World, input: Input, id: string, i: nat, after: Plan, faults: Schedule)
    returns (w': World, later: Schedule, through: bool)
    requires i < |COMPONENTS| && Staging(id) in w.dirs
    ensures Touches(w, w', id)
    ensures through ==>
              && w'.dirs == w.dirs[Staging(id) := OneStaged(env, input, w.dirs[Staging(id)], COMPONENTS[i])]
              && DigestAccepts(env, id, COMPONENTS[i], input.downloads(COMPONENTS[i]))
              && Perform(env, w, Components(env, input, id, i, after), faults)
                 == Perform(env, w', Components(env, input, id, i + 1, after), later)
    ensures !through ==> var o := Perform(env, w, Components(env, input, id, i, after), faults);
                         o.world == w' && o.end != Finished
    ensures faults.Quiet? ==> later.Quiet? && (through <==> DigestAccepts(env, id, COMPONENTS[i], input.downloads(COMPONENTS[i])))
  {
    var c, dir := COMPONENTS[i], Staging(id);
    var accepted := DigestAccepts(env, id, c, input.downloads(c));
    var rest := Components(env, input, id, i + 1, after);
    var download := Download(dir, c, input.downloads(c));
    var p3 := AfterDownload(dir, input, c, accepted, rest);
    var f2 := faults.Tail();
    assert Components(env, input, id, i, after) == Do(Ask, Do(download, p3));
    if faults.Head() != Fine {
      return w, f2, false;
    }
    assert Perform(env, w, Do(Ask, Do(download, p3)), faults) == Perform(env, w, Do(download, p3), f2);
    if f2.Head() != Fine {
      w' := Interrupted(w, download, f2.Head().debris);
      assert w'.dirs - {dir} == w.dirs - {dir};
      return w', f2, false;
    }
    var w2 := Completed(env, w, download);
    assert w2.dirs - {dir} == w.dirs - {dir};
    assert Perform(env, w, Do(download, p3), f2) == Perform(env, w2, p3, f2.Tail());
    w', later, through := SealOrDrop(env, w2, input, id, c, accepted, rest, f2.Tail());
    TouchesTwice(w, w2, w', id);
  }

  lemma StagingAdvances(env: Environment, w: World, input: Input, id: string, i: nat, after: Plan, faults: Schedule)
    returns (w': World, later: Schedule, through: bool)
    requires Lawful(env.aead) && WellFormed(input)
    requires i < |COMPONENTS| && Staging(id) in w.dirs && Staged(env, input, id, w.dirs[Staging(id)], i)
    ensures Touches(w, w', id)
    ensures through ==>
              && Staging(id) in w'.dirs && Staged(env, input, id, w'.dirs[Staging(id)], i + 1)
              && DigestAccepts(env, id, COMPONENTS[i], input.downloads(COMPONENTS[i]))
              && Perform(env, w, Components(env, input, id, i, after), faults)
                 == Perform(env, w', Components(env, input, id, i + 1, after), later)
    ensures !through ==> var o := Perform(env, w, Components(env, input, id, i, after), faults);
                         o.world == w' && o.end != Finished
    ensures faults.Quiet? ==> later.Quiet? && (through <==> DigestAccepts(env, id, COMPONENTS[i], input.downloads(COMPONENTS[i])))
  {
    w', later, through := StagingStep(env, w, input, id, i, after, faults);
    if through {
      StagingOne(env, input, id, w.dirs[Staging(id)], i);
    }
  }

  // The downloads from component i on all match the manifest.
  predicate AllAccepted(env: Environment, input: Input, id: string, i: nat)
    requires i <= |COMPONENTS|
    decreases |COMPONENTS| - i
  {
    i < |COMPONENTS| ==>
      MatchesManifest(env, id, COMPONENTS[i], input.downloads(COMPONENTS[i])) && AllAccepted(env, input, id, i + 1)
  }

  lemma {:induction false} AllAcceptedIs(env: Environment, input: Input, id: string, i: nat)
    requires i <= |COMPONENTS|
    ensures AllAccepted(env, input, id, i) <==>
              forall j :: i <= j < |COMPONENTS| ==> MatchesManifest(env, id, COMPONENTS[j], input.downloads(COMPONENTS[j]))
    decreases |COMPONENTS| - i
  {
    if i < |COMPONENTS| {
      AllAcceptedIs(env, input, id, i + 1);
    }
  }

  lemma AcceptedDownloadsMatch(env: Environment, input: Input, id: string)
    ensures AllAccepted(env, input, id, 0) <==> DownloadsMatch(env, input, id)
  {
    AllAcceptedIs(env, input, id, 0);
    forall j | 0 <= j < |COMPONENTS|
      ensures COMPONENTS[j] in COMPONENTS
    {
    }
  }

  // Staging from component i on, as a whole: either it got all the way through and the
  // plan goes on with `after`, or the run ended with only the staging directory touched.
  ghost predicate StagedThrough(
      env: Environment, w: World, input: Input, id: string, i: nat, after: Plan, faults: Schedule,
      w': World, later: Schedule, through: bool)
    requires i <= |COMPONENTS|
  {
    var o := Perform(env, w, Components(env, input, id, i, after), faults);
    && Touches(w, w', id)
    && (through ==>
          Staging(id) in w'.dirs && Staged(env, input, id, w'.dirs[Staging(id)], |COMPONENTS|) &&
          AllAccepted(env, input, id, i) && o == Perform(env, w', after, later))
    && (!through ==> o.world == w' && o.end != Finished)
    && (faults.Quiet? ==> later.Quiet? && (through <==> AllAccepted(env, input, id, i)))
  }

  lemma StagingCompose(
      env: Environment, w: World, input: Input, id: string, i: nat, after: Plan, faults: Schedule,
      w1: World, later1: Schedule, w': World, later: Schedule, through: bool)
    requires i < |COMPONENTS| && Touches(w, w1, id)
    requires DigestAccepts(env, id, COMPONENTS[i], input.downloads(COMPONENTS[i]))
    requires Perform(env, w, Components(env, input, id, i, after), faults)
             == Perform(env, w1, Components(env, input, id, i + 1, after), later1)
    requires faults.Quiet? ==> later1.Quiet?
    requires StagedThrough(env, w1, input, id, i + 1, after, later1, w', later, through)
    ensures StagedThrough(env, w, input, id, i, after, faults, w', later, through)
  {
    TouchesTwice(w, w1, w', id);
  }

  lemma {:induction false} StagingRuns(env: Environment, w: World, input: Input, id: string, i: nat, after: Plan, faults: Schedule)
    returns (w': World, later: Schedule, through: bool)
    requires Lawful(env.aead) && WellFormed(input)
    requires i <= |COMPONENTS| && Staging(id) in w.dirs && Staged(env, input, id, w.dirs[Staging(id)], i)
    ensures StagedThrough(env, w, input, id, i, after, faults, w', later, through)
    decreases |COMPONENTS| - i
  {
    if i == |COMPONENTS| {
      return w, faults, true;
    }
    var w1, later1, through1 := StagingAdvances(env, w, input, id, i, after, faults);
    if !through1 {
      assert Perform(env, w, Components(env, input, id, i, after), faults).world == w1;
      return w1, later1, false;
    }
    w', later, through := StagingRuns(env, w1, input, id, i + 1, after, later1);
    StagingCompose(env, w, input, id, i, after, faults, w1, later1, w', later, through);
  }

  // --- one run ------------------------------------------------------------

  // The snapshot a run sets out to fetch, if any.
  function Target(w: World, input: Input): Option<Snapshot> {
    var ready := Ready(input.listing);
    if ready == [] || CompletedIn(Load(w), Latest(ready).id) then None else Some(Latest(ready))
  }

  function NewRecord(input: Input, latest: Snapshot): Record {
    Record(latest.sequence, Some(input.finishedAt), RecordedPaths(latest.id))
  }

  ghost predicate Arrived(env: Environment, w: World, input: Input, latest: Snapshot) {
    latest.id in w.dirs && CompleteUnder(env, latest.id, w.dirs[latest.id], input.password)
  }

  // A state object a run may hold or save: the records are as before, or have gained the
  // new one, and then the directory is there and the server has been told.
  ghost predicate Honest(env: Environment, w: World, input: Input, latest: Snapshot, base: SyncState, state: SyncState) {
    && state.intervalMinutes == base.intervalMinutes
    && (state.snapshots == base.snapshots ||
        (state.snapshots == base.snapshots[latest.id := NewRecord(input, latest)] &&
         Arrived(env, w, input, latest) && latest.id in w.acked))
  }

  // How far a run for `latest` can change the world, wherever it stops.
  ghost predicate Progress(env: Environment, w: World, w': World, input: Input, latest: Snapshot) {
    var id, staging := latest.id, Staging(latest.id);
    && w'.dirs - {id, staging} == w.dirs - {id, staging}
    && (w'.acked == w.acked || (w'.acked == w.acked + {id} && Arrived(env, w', input, latest)))
    && Honest(env, w', input, latest, Load(w), Load(w'))
    && Honest(env, w', input, latest, Load(w), w'.memory)
    && (id in w'.dirs ==> Arrived(env, w', input, latest) || (id in w.dirs && w'.dirs[id].Keys <= w.dirs[id].Keys))
    && (id in w'.dirs && id !in w.dirs ==> Arrived(env, w', input, latest))
  }

  // A run with nothing to fetch changes at most status fields.
  ghost predicate Idle(w: World, w': World) {
    && w'.dirs == w.dirs && w'.acked == w.acked
    && Load(w').snapshots == Load(w).snapshots && Load(w').intervalMinutes == Load(w).intervalMinutes
    && w'.memory.snapshots == Load(w).snapshots && w'.memory.intervalMinutes == Load(w).intervalMinutes
  }

  // The run has loaded the state file, and what it remembers is what it loaded.
  predicate Loaded(w: World) {
    w.stateFile == Some(w.memory)
  }

  lemma UntouchedDir(w: World, w': World, id: string)
    requires Touches(w, w', id)
    ensures id in w'.dirs <==> id in w.dirs
    ensures id in w.dirs ==> w'.dirs[id] == w.dirs[id]
  {
    assert id != Staging(id);
    assert id in w'.dirs <==> id in w'.dirs - {Staging(id)};
    assert id in w.dirs <==> id in w.dirs - {Staging(id)};
    if id in w.dirs {
      assert (w'.dirs - {Staging(id)})[id] == (w.dirs - {Staging(id)})[id];
    }
  }

  lemma TouchesIsProgress(env: Environment, w: World, w': World, input: Input, latest: Snapshot)
    requires Loaded(w) && Touches(w, w', latest.id)
    ensures Progress(env, w, w', input, latest)
  {
    UntouchedDir(w, w', latest.id);
    assert w'.dirs - {latest.id, Staging(latest.id)} == (w'.dirs - {Staging(latest.id)}) - {latest.id};
    assert w.dirs - {latest.id, Staging(latest.id)} == (w.dirs - {Staging(latest.id)}) - {latest.id};
  }

  lemma SaveKeepsProgress(env: Environment, w: World, w1: World, w': World, input: Input, latest: Snapshot)
    requires Progress(env, w, w1, input, latest)
    requires w' == w1.(stateFile := w'.stateFile, temps := w'.temps, memory := w'.memory)
    requires w'.memory.snapshots == w1.memory.snapshots && w'.memory.intervalMinutes == w1.memory.intervalMinutes
    requires w'.stateFile == w1.stateFile || w'.stateFile == Some(w'.memory)
    ensures Progress(env, w, w', input, latest)
  {
  }

  lemma StagedIsComplete(env: Environment, input: Input, id: string, files: Files)
    requires Staged(env, input, id, files, |COMPONENTS|)
    ensures CompleteUnder(env, id, files, input.password)
  {
    forall name
      ensures name in files <==> name in SealedNames()
    {
      if name in SealedNames() {
        var c :| c in COMPONENTS && name == Sealed(c);
        var j :| 0 <= j < |COMPONENTS| && COMPONENTS[j] == c;
      }
    }
    forall c | c in COMPONENTS
      ensures GoodFile(env, id, c, input.password, files[Sealed(c)])
    {
      var j :| 0 <= j < |COMPONENTS| && COMPONENTS[j] == c;
    }
  }

  // The run still remembers what it loaded.
  predicate Remembers(w0: World, w: World) {
    w.memory == w0.memory && w.stateFile == w0.stateFile
  }

  // Where a plan performed for `latest` may end.
  ghost predicate EndsWell(env: Environment, w0: World, input: Input, latest: Snapshot, faults: Schedule, o: Outcome) {
    && Progress(env, w0, o.world, input, latest)
    && (o.end == Finished ==> o.world.stateFile == Some(WithRecord(w0.memory, latest, input.finishedAt)))
    && (faults.Quiet? ==> o.end == Finished)
  }

  lemma RecordRuns(env: Environment, w0: World, w: World, input: Input, latest: Snapshot, faults: Schedule)
    requires Loaded(w0) && Remembers(w0, w) && Progress(env, w0, w, input, latest)
    requires Arrived(env, w, input, latest) && latest.id in w.acked
    ensures EndsWell(env, w0, input, latest, faults, Perform(env, w,
              Do(Remember(WithRecord(w.memory, latest, input.finishedAt)), Save(input.temps.1)), faults))
  {
    var w1 := w.(memory := WithRecord(w.memory, latest, input.finishedAt));
    SaveIsAtomic(env, w1, input.temps.1, faults);
  }

  lemma AckRuns(env: Environment, w0: World, w: World, input: Input, latest: Snapshot, faults: Schedule)
    requires Loaded(w0) && Remembers(w0, w) && Progress(env, w0, w, input, latest)
    requires Arrived(env, w, input, latest) && w.acked == w0.acked
    ensures EndsWell(env, w0, input, latest, faults, Perform(env, w, Do(Ack(latest.id),
              Do(Remember(WithRecord(w.memory, latest, input.finishedAt)), Save(input.temps.1))), faults))
  {
    if faults.Head() == Fine {
      RecordRuns(env, w0, Completed(env, w, Ack(latest.id)), input, latest, faults.Tail());
    }
  }

  lemma RenameRuns(env: Environment, w0: World, w: World, input: Input, latest: Snapshot, faults: Schedule)
    requires Loaded(w0) && Remembers(w0, w) && Progress(env, w0, w, input, latest) && w.acked == w0.acked
    requires latest.id !in w.dirs && Staging(latest.id) in w.dirs
    requires CompleteUnder(env, latest.id, w.dirs[Staging(latest.id)], input.password)
    ensures EndsWell(env, w0, input, latest, faults, Perform(env, w, Do(RenameDir(Staging(latest.id), latest.id),
              Do(Ack(latest.id), Do(Remember(WithRecord(w.memory, latest, input.finishedAt)), Save(input.temps.1)))), faults))
  {
    var id, staging := latest.id, Staging(latest.id);
    if faults.Head() == Fine {
      var w1 := Completed(env, w, RenameDir(staging, id));
      assert w1.dirs - {id, staging} == w.dirs - {id, staging};
      AckRuns(env, w0, w1, input, latest, faults.Tail());
    }
  }

  // From a complete staging directory to the published, acknowledged, recorded snapshot.
  lemma PublishRuns(env: Environment, w0: World, w: World, input: Input, latest: Snapshot, faults: Schedule)
    requires Loaded(w0) && Touches(w0, w, latest.id)
    requires Staging(latest.id) in w.dirs
    requires CompleteUnder(env, latest.id, w.dirs[Staging(latest.id)], input.password)
    ensures EndsWell(env, w0, input, latest, faults, Perform(env, w, Publish(input, w.memory, latest), faults))
  {
    var id, staging := latest.id, Staging(latest.id);
    assert id != staging;
    TouchesIsProgress(env, w0, w, input, latest);
    if faults.Head() == Fine {
      var w1 := Completed(env, w, RemoveDir(id));
      assert w1.dirs - {id, staging} == w.dirs - {id, staging};
      RenameRuns(env, w0, w1, input, latest, faults.Tail());
    } else {
      var w1 := Interrupted(w, RemoveDir(id), faults.Head().debris);
      assert w1.dirs - {id, staging} == w.dirs - {id, staging};
      UntouchedDir(w0, w, id);
    }
  }

  // Where an attempt that set out from `w` may end.
  ghost predicate RanTo(env: Environment, w: World, input: Input, latest: Snapshot, faults: Schedule, o: Outcome) {
    && Progress(env, w, o.world, input, latest)
    && (o.end == Finished ==> o.world.stateFile == Some(WithRecord(w.memory, latest, input.finishedAt)))
    && (faults.Quiet? ==> (o.end == Finished <==> AllAccepted(env, input, latest.id, 0)))
    && (!AllAccepted(env, input, latest.id, 0) ==> Touches(w, o.world, latest.id) && o.end != Finished)
  }

  lemma StagedRuns(env: Environment, w0: World, w: World, input: Input, latest: Snapshot, faults: Schedule)
    requires Lawful(env.aead) && WellFormed(input) && Loaded(w0) && Touches(w0, w, latest.id)
    requires Staging(latest.id) in w.dirs && w.dirs[Staging(latest.id)] == map[]
    ensures var o := Perform(env, w, Components(env, input, latest.id, 0, Publish(input, w0.memory, latest)), faults);
            RanTo(env, w0, input, latest, faults, o)
  {
    var after := Publish(input, w0.memory, latest);
    var w', later, through := StagingRuns(env, w, input, latest.id, 0, after, faults);
    TouchesTwice(w0, w, w', latest.id);
    if through {
      StagedIsComplete(env, input, latest.id, w'.dirs[Staging(latest.id)]);
      PublishRuns(env, w0, w', input, latest, later);
    } else {
      TouchesIsProgress(env, w0, w', input, latest);
    }
  }

  lemma StagingIsPrepared(env: Environment, w: World, input: Input, latest: Snapshot, faults: Schedule)
    requires Lawful(env.aead) && WellFormed(input) && Loaded(w)
    ensures var p := Components(env, input, latest.id, 0, Publish(input, w.memory, latest));
            var o := Perform(env, w, Do(RemoveDir(Staging(latest.id)), Do(MakeDir(Staging(latest.id)), p)), faults);
            RanTo(env, w, input, latest, faults, o)
  {
    var staging := Staging(latest.id);
    var p4 := Components(env, input, latest.id, 0, Publish(input, w.memory, latest));
    var p3 := Do(MakeDir(staging), p4);
    var p2 := Do(RemoveDir(staging), p3);
    var f3 := faults.Tail();
    if faults.Head() != Fine {
      var w' := Interrupted(w, RemoveDir(staging), faults.Head().debris);
      assert w'.dirs - {staging} == w.dirs - {staging};
      TouchesIsProgress(env, w, w', input, latest);
      return;
    }
    var w1 := Completed(env, w, RemoveDir(staging));
    assert Perform(env, w, p2, faults) == Perform(env, w1, p3, f3);
    assert w1.dirs - {staging} == w.dirs - {staging};
    TouchesIsProgress(env, w, w1, input, latest);
    if f3.Head() != Fine {
      return;
    }
    var w2 := Completed(env, w1, MakeDir(staging));
    assert Perform(env, w1, p3, f3) == Perform(env, w2, p4, f3.Tail());
    assert w2.dirs - {staging} == w.dirs - {staging};
    StagedRuns(env, w, w2, input, latest, f3.Tail());
  }

  lemma AttemptRuns(env: Environment, w: World, input: Input, latest: Snapshot, faults: Schedule)
    requires Lawful(env.aead) && WellFormed(input) && Loaded(w) && Target(w, input) == Some(latest)
    ensures var o := Perform(env, w, Attempt(env, input, w.memory), faults);
            RanTo(env, w, input, latest, faults, o)
  {
    var staging := Staging(latest.id);
    var after := Publish(input, w.memory, latest);
    var p4 := Components(env, input, latest.id, 0, after);
    var p3 := Do(MakeDir(staging), p4);
    var p2 := Do(RemoveDir(staging), p3);
    var f1, f2 := faults.Tail(), faults.Tail().Tail();
    assert Attempt(env, input, w.memory) == Do(Ask, Do(Ask, p2));
    assert Touches(w, w, latest.id);
    TouchesIsProgress(env, w, w, input, latest);
    if faults.Head() != Fine {
      return;
    }
    assert Perform(env, w, Do(Ask, Do(Ask, p2)), faults) == Perform(env, w, Do(Ask, p2), f1);
    if f1.Head() != Fine {
      return;
    }
    assert Perform(env, w, Do(Ask, p2), f1) == Perform(env, w, p2, f2);
    StagingIsPrepared(env, w, input, latest, f2);
  }

  lemma {:induction false} QuietNeverCrashes(env: Environment, w: World, plan: Plan)
    ensures Perform(env, w, plan, Quiet).end != Crashed && Perform(env, w, plan, Quiet).faults == Quiet
    decreases plan
  {
    if plan.Do? && Possible(w, plan.op) {
      QuietNeverCrashes(env, Completed(env, w, plan.op), plan.rest);
    }
  }

  lemma IdleAttempt(env: Environment, w: World, input: Input, faults: Schedule)
    requires Loaded(w) && Target(w, input) == None
    ensures var o := Perform(env, w, Attempt(env, input, w.memory), faults);
            Idle(w, o.world) && (faults.Quiet? ==> o.end == Finished)
  {
    var ready := Ready(input.listing);
    if faults.Head() == Fine {
      var state :=
        if ready == [] then
          w.memory.(lastStatus := Some(StatusOk), lastCompletedAt := Some(input.finishedAt), lastError := None)
        else
          w.memory.(lastStatus := Some(StatusOk), lastCompletedAt := Some(input.finishedAt),
                    lastSnapshotId := Some(Latest(ready).id), lastSnapshotSequence := Some(Latest(ready).sequence));
      var rest := Do(Remember(state), Save(input.temps.1));
      assert Attempt(env, input, w.memory) == Do(Ask, rest);
      assert Perform(env, w, Do(Ask, rest), faults) == Perform(env, w, rest, faults.Tail());
      SaveIsAtomic(env, w.(memory := state), input.temps.1, faults.Tail());
    }
  }

  // Marking the start: nothing but the state file's own status can have changed.
  lemma BeginRuns(env: Environment, w: World, input: Input, faults: Schedule)
    ensures var o := Perform(env, w, Do(Ask, Do(Remember(Started(w, input)), Save(input.temps.0))), faults);
            && o.world.dirs == w.dirs && o.world.acked == w.acked
            && Load(o.world).snapshots == Load(w).snapshots && Load(o.world).intervalMinutes == Load(w).intervalMinutes
            && (o.end == Finished ==> Loaded(o.world) && o.world.memory == Started(w, input))
            && (faults.Quiet? ==> o.end == Finished && o.faults == Quiet)
  {
    var started := Started(w, input);
    var rest := Do(Remember(started), Save(input.temps.0));
    if faults.Head() == Fine {
      assert Perform(env, w, Do(Ask, rest), faults) == Perform(env, w, rest, faults.Tail());
      SaveIsAtomic(env, w.(memory := started), input.temps.0, faults.Tail());
    }
  }

  // What any run, however it ends, can have done.
  ghost predicate RunEffect(env: Environment, w: World, input: Input, w': World) {
    match Target(w, input)
    case None =>
      && w'.dirs == w.dirs && w'.acked == w.acked
      && Load(w').snapshots == Load(w).snapshots && Load(w').intervalMinutes == Load(w).intervalMinutes
    case Some(latest) =>
      var id, staging := latest.id, Staging(latest.id);
      && w'.dirs - {id, staging} == w.dirs - {id, staging}
      && (w'.acked == w.acked || (w'.acked == w.acked + {id} && Arrived(env, w', input, latest)))
      && Honest(env, w', input, latest, Load(w), Load(w'))
      && (id in w'.dirs ==> Arrived(env, w', input, latest) || (id in w.dirs && w'.dirs[id].Keys <= w.dirs[id].Keys))
      && (id in w'.dirs && id !in w.dirs ==> Arrived(env, w', input, latest))
  }

  lemma NoteFailure(env: Environment, w: World, input: Input, faults: Schedule)
    ensures var o := Perform(env, w, Do(Remember(Failed(w.memory, input)), Save(input.temps.2)), faults);
            && o.world == w.(stateFile := o.world.stateFile, temps := o.world.temps, memory := Failed(w.memory, input))
            && (o.world.stateFile == w.stateFile || o.world.stateFile == Some(o.world.memory))
            && (faults.Quiet? ==> o.end == Finished)
  {
    SaveIsAtomic(env, w.(memory := Failed(w.memory, input)), input.temps.2, faults);
  }

  lemma RunHasEffect(env: Environment, w: World, input: Input, faults: Schedule)
    requires Lawful(env.aead) && WellFormed(input)
    ensures RunEffect(env, w, input, Run(env, w, input, faults).world)
  {
    BeginRuns(env, w, input, faults);
    var begun := Perform(env, w, Do(Ask, Do(Remember(Started(w, input)), Save(input.temps.0))), faults);
    if begun.end == Finished {
      var w1 := begun.world;
      var tried := Perform(env, w1, Attempt(env, input, w1.memory), begun.faults);
      NoteFailure(env, tried.world, input, tried.faults);
      match Target(w, input) {
        case None =>
          IdleAttempt(env, w1, input, begun.faults);
        case Some(latest) =>
          AttemptRuns(env, w1, input, latest, begun.faults);
          if tried.end == Threw {
            SaveKeepsProgress(env, w1, tried.world, Run(env, w, input, faults).world, input, latest);
          }
      }
    }
  }
}
