/**
 The sync run in the source's own form: a process that loads, mutates and saves its
 state and works on the disk step by step. It is proved to end exactly where the
 plan of the protocol ends under the same faults, so every guarantee about runs
 holds of it. Beside it, the checked download of desktop/src/backup-client.js.
 */
module SyncRunner {
  import opened Common
  import opened Envelope
  import opened SyncProtocol
  import opened SyncEffects

  function Concat(chunks: seq<Bytes>): Bytes {
    if chunks == [] then [] else Concat(chunks[..|chunks| - 1]) + chunks[|chunks| - 1]
  }

  // Hash while writing: the digest is taken of exactly the bytes that reached the file,
  // and a file whose digest differs does not survive. An absent or empty digest is not checked.
  method DownloadToFile(dirs: map<string, Files>, dir: string, name: string, chunks: seq<Bytes>,
                        sha256: Bytes -> string, expected: Option<string>)
    returns (dirs': map<string, Files>, ok: bool)
    requires dir in dirs
    ensures ok <==> expected.None? || expected.value == "" || sha256(Concat(chunks)) == expected.value
    ensures ok ==> dirs' == dirs[dir := dirs[dir][name := Concat(chunks)]]
    ensures !ok ==> dirs' == dirs[dir := dirs[dir] - {name}]
  {
    var hashed, written := [], [];
    for i := 0 to |chunks|
      invariant hashed == written == Concat(chunks[..i])
    {
      assert chunks[..i + 1][..i] == chunks[..i];
      hashed := hashed + chunks[i];
      written := written + chunks[i];
    }
    assert chunks[..|chunks|] == chunks;
    var actual := sha256(hashed);
    var files := dirs[dir][name := written];
    if expected.Some? && expected.value != "" && actual != expected.value {
      assert files - {name} == dirs[dir] - {name};
      return dirs[dir := files - {name}], false;
    }
    return dirs[dir := files], true;
  }

  class Desktop {
    var dirs: map<string, Files>
    var stateFile: Option<SyncState>
    var temps: map<string, Option<SyncState>>
    var acked: set<string>
    var state: SyncState
    var faults: Schedule

    ghost function Here(): World
      reads this
    {
      World(dirs, stateFile, temps, acked, state)
    }

    constructor (w: World, faults: Schedule)
      ensures Here() == w && this.faults == faults
    {
      dirs, stateFile, temps, acked, state := w.dirs, w.stateFile, w.temps, w.acked, w.memory;
      this.faults := faults;
    }

    // What a method doing `plan` guarantees: it stops where the plan stops.
    // `rest` is what the plan goes on with when the method does not end the run.
    ghost predicate Did(env: Environment, w: World, plan: Plan, before: Schedule, end: End, rest: Plan)
      reads this
    {
      && (end == Finished ==> Perform(env, w, plan, before) == Perform(env, Here(), rest, faults))
      && (end != Finished ==> Perform(env, w, plan, before) == Outcome(Here(), end, faults))
    }

    // One I/O step, under the next fault.
    method Step(env: Environment, op: Op, ghost rest: Plan) returns (end: End)
      requires !op.Remember?
      modifies this
      ensures Did(env, old(Here()), Do(op, rest), old(faults), end, rest)
      ensures end == Finished ==> Possible(old(Here()), op) && Here() == Completed(env, old(Here()), op)
      ensures state == old(state)
    {
      var here := World(dirs, stateFile, temps, acked, state);
      var fault := faults.Head();
      faults := faults.Tail();
      end := if fault.Crash? then Crashed else if fault.Throw? || !Possible(here, op) then Threw else Finished;
      var there :=
        if fault.Fine? then (if Possible(here, op) then Completed(env, here, op) else here)
        else Interrupted(here, op, fault.debris);
      dirs, stateFile, temps, acked := there.dirs, there.stateFile, there.temps, there.acked;
    }

    method SaveState(env: Environment, name: string) returns (end: End)
      modifies this
      ensures Outcome(Here(), end, faults) == Perform(env, old(Here()), Save(name), old(faults))
      ensures state == old(state)
    {
      end := Step(env, WriteTemp(name), Do(RenameTemp(name), Stop));
      if end == Finished {
        end := Step(env, RenameTemp(name), Stop);
      }
    }

    // One component: fetch, verify, encrypt, delete the plaintext.
    method SyncComponent(env: Environment, input: Input, id: string, i: nat, ghost after: Plan) returns (end: End)
      requires i < |COMPONENTS|
      modifies this
      ensures state == old(state)
      ensures Did(env, old(Here()), Components(env, input, id, i, after), old(faults), end,
                  Components(env, input, id, i + 1, after))
      ensures end == Finished ==> MatchesManifest(env, id, COMPONENTS[i], input.downloads(COMPONENTS[i]))
    {
      var c, dir := COMPONENTS[i], Staging(id);
      var bytes, nonce := input.downloads(c), input.nonces(c);
      var accepted := DigestAccepts(env, id, c, bytes);
      ghost var next := Components(env, input, id, i + 1, after);
      ghost var encrypting := Do(Encrypt(dir, c, input.password, nonce.0, nonce.1), Do(DropPlain(dir, c), next));
      ghost var discarding := Do(DropPlain(dir, c), Do(Raise, Stop));
      ghost var saving := Do(Download(dir, c, bytes), if accepted then encrypting else discarding);
      end := Step(env, Ask, saving);
      if end != Finished { return; }
      end := Step(env, Download(dir, c, bytes), if accepted then encrypting else discarding);
      if end != Finished { return; }
      if !accepted {
        end := Step(env, DropPlain(dir, c), Do(Raise, Stop));
        if end == Finished {
          end := Step(env, Raise, Stop);
        }
        return;
      }
      end := Step(env, Encrypt(dir, c, input.password, nonce.0, nonce.1), Do(DropPlain(dir, c), next));
      if end != Finished { return; }
      end := Step(env, DropPlain(dir, c), next);
    }

    // Swap the staged directory in, tell the server, and record the snapshot.
    method PublishSnapshot(env: Environment, input: Input, latest: Snapshot) returns (end: End)
      modifies this
      ensures Outcome(Here(), end, faults) == Perform(env, old(Here()), Publish(input, old(state), latest), old(faults))
    {
      ghost var recording := Do(Remember(WithRecord(state, latest, input.finishedAt)), Save(input.temps.1));
      ghost var acking := Do(Ack(latest.id), recording);
      ghost var renaming := Do(RenameDir(Staging(latest.id), latest.id), acking);
      end := Step(env, RemoveDir(latest.id), renaming);
      if end != Finished { return; }
      end := Step(env, RenameDir(Staging(latest.id), latest.id), acking);
      if end != Finished { return; }
      end := Step(env, Ack(latest.id), recording);
      if end != Finished { return; }
      state := WithRecord(state, latest, input.finishedAt);
      end := SaveState(env, input.temps.1);
    }

    // The loop over the components, from a staging directory made for it.
    method StageComponents(env: Environment, input: Input, id: string, ghost after: Plan) returns (end: End)
      modifies this
      ensures state == old(state)
      ensures Did(env, old(Here()), Components(env, input, id, 0, after), old(faults), end, after)
    {
      ghost var goal := Perform(env, Here(), Components(env, input, id, 0, after), faults);
      for i := 0 to |COMPONENTS|
        invariant state == old(state)
        invariant goal == Perform(env, Here(), Components(env, input, id, i, after), faults)
      {
        end := SyncComponent(env, input, id, i, after);
        if end != Finished { return; }
      }
      end := Finished;
    }

    method FetchSnapshot(env: Environment, input: Input, latest: Snapshot) returns (end: End)
      modifies this
      ensures Outcome(Here(), end, faults) ==
                Perform(env, old(Here()),
                        Do(Ask, Do(RemoveDir(Staging(latest.id)), Do(MakeDir(Staging(latest.id)),
                           Components(env, input, latest.id, 0, Publish(input, old(state), latest))))), old(faults))
    {
      ghost var after := Publish(input, state, latest);
      ghost var staging := Components(env, input, latest.id, 0, after);
      ghost var making := Do(MakeDir(Staging(latest.id)), staging);
      end := Step(env, Ask, Do(RemoveDir(Staging(latest.id)), making));
      if end != Finished { return; }
      end := Step(env, RemoveDir(Staging(latest.id)), making);
      if end != Finished { return; }
      end := Step(env, MakeDir(Staging(latest.id)), staging);
      if end != Finished { return; }
      end := StageComponents(env, input, latest.id, after);
      if end != Finished { return; }
      end := PublishSnapshot(env, input, latest);
    }

    // The try block.
    method TrySync(env: Environment, input: Input) returns (end: End)
      modifies this
      ensures Outcome(Here(), end, faults) == Perform(env, old(Here()), Attempt(env, input, old(state)), old(faults))
    {
      var ready := Ready(input.listing);
      ghost var Do(_, rest) := Attempt(env, input, state);
      end := Step(env, Ask, rest);
      if end != Finished { return; }
      if ready == [] {
        state := state.(lastStatus := Some(StatusOk), lastCompletedAt := Some(input.finishedAt), lastError := None);
        end := SaveState(env, input.temps.1);
        return;
      }
      var latest := Latest(ready);
      if CompletedIn(state, latest.id) {
        state := state.(lastStatus := Some(StatusOk),
                        lastCompletedAt := Some(input.finishedAt),
                        lastSnapshotId := Some(latest.id),
                        lastSnapshotSequence := Some(latest.sequence));
        end := SaveState(env, input.temps.1);
      } else {
        end := FetchSnapshot(env, input, latest);
      }
    }

    method RunSync(env: Environment, input: Input) returns (end: End)
      modifies this
      ensures Outcome(Here(), end, faults) == Run(env, old(Here()), input, old(faults))
    {
      ghost var started := Started(Here(), input);
      ghost var beginning := Do(Ask, Do(Remember(started), Save(input.temps.0)));
      ghost var begun := Perform(env, Here(), beginning, faults);
      end := Step(env, Ask, Do(Remember(started), Save(input.temps.0)));
      if end != Finished { return; }
      state := if stateFile.Some? then stateFile.value else DEFAULT_STATE;
      state := state.(lastStartedAt := Some(input.startedAt));
      assert begun == Perform(env, Here(), Save(input.temps.0), faults);
      end := SaveState(env, input.temps.0);
      assert begun == Outcome(Here(), end, faults);
      if end != Finished { return; }
      end := TrySync(env, input);
      if end == Threw {
        state := state.(lastStatus := Some(StatusFailed), lastError := Some(input.errorText),
                        lastCompletedAt := Some(input.finishedAt));
        var noted := SaveState(env, input.temps.2);
        end := if noted == Crashed then Crashed else Threw;
      }
    }
  }
}
