/**
 The migration runner (backend/scripts/migrate.py) with any number of runners at
 once. A file's SQL and its tracking row commit in one transaction, and the row's
 primary key makes a second commit of the same version fail; everything between
 two commits of one runner may interleave with the others.
 */
module Migrations {
  import opened Common

  type Version = string

  // The files in application order, and the prefixes to skip.
  datatype Setup = Setup(files: seq<Version>, skip: set<string>)
  {
    predicate Distinct() {
      forall i, j :: 0 <= i < j < |files| ==> files[i] != files[j]
    }

    predicate Skipped(k: nat)
      requires k < |files|
    {
      exists prefix <- skip :: prefix <= files[k]
    }
  }

  // `seen` is the tracking table as the runner read it; plans and lists hold positions in the files.
  datatype Runner =
    | Applying(seen: set<Version>, plan: seq<nat>, next: nat)
    | Applied(seen: set<Version>, plan: seq<nat>, next: nat, success: bool)
    | Marking(cutoff: nat, todo: seq<nat>, next: nat)
    | Marked(cutoff: nat)
    | Refused

  // `initial` is what was recorded to begin with; `executed` and `baselined` list, in
  // commit order, the files whose SQL ran and the files recorded without running.
  datatype World = World(
    initial: set<Version>,
    recorded: set<Version>,
    executed: seq<nat>,
    baselined: seq<nat>,
    runners: map<nat, Runner>)

  datatype Action =
    | BeginApply(runner: nat)
    | BeginBaseline(runner: nat, upto: string)
    | Advance(runner: nat, sqlSucceeds: bool)

  // Positions from k on that are neither recorded in `seen` nor skipped.
  function Pending(setup: Setup, seen: set<Version>, k: nat): seq<nat>
    requires k <= |setup.files|
    decreases |setup.files| - k
  {
    if k == |setup.files| then []
    else (if setup.files[k] in seen || setup.Skipped(k) then [] else [k]) + Pending(setup, seen, k + 1)
  }

  // The first file that starts with `upto`.
  function Cutoff(setup: Setup, upto: string, k: nat): Option<nat>
    requires k <= |setup.files|
    decreases |setup.files| - k
  {
    if k == |setup.files| then None
    else if upto <= setup.files[k] then Some(k)
    else Cutoff(setup, upto, k + 1)
  }

  // What baseline has to record: the unrecorded positions from k to the cutoff.
  function ToMark(setup: Setup, seen: set<Version>, k: nat, cutoff: nat): seq<nat>
    requires cutoff < |setup.files| && k <= cutoff + 1
    decreases cutoff + 1 - k
  {
    if k == cutoff + 1 then []
    else (if setup.files[k] in seen then [] else [k]) + ToMark(setup, seen, k + 1, cutoff)
  }

  function AdvanceRunner(setup: Setup, w: World, r: nat, sqlSucceeds: bool): World
    requires r in w.runners
  {
    match w.runners[r]
    case Applying(seen, plan, next) =>
      if next >= |plan| then
        w.(runners := w.runners[r := Applied(seen, plan, next, true)])
      else if plan[next] < |setup.files| && sqlSucceeds && setup.files[plan[next]] !in w.recorded then
        w.(recorded := w.recorded + {setup.files[plan[next]]},
           executed := w.executed + [plan[next]],
           runners := w.runners[r := Applying(seen, plan, next + 1)])
      else
        w.(runners := w.runners[r := Applied(seen, plan, next, false)])
    case Marking(cutoff, todo, next) =>
      if next >= |todo| then
        w.(runners := w.runners[r := Marked(cutoff)])
      else if todo[next] < |setup.files| && setup.files[todo[next]] !in w.recorded then
        w.(recorded := w.recorded + {setup.files[todo[next]]},
           baselined := w.baselined + [todo[next]],
           runners := w.runners[r := Marking(cutoff, todo, next + 1)])
      else  // on conflict do nothing
        w.(runners := w.runners[r := Marking(cutoff, todo, next + 1)])
    case _ => w
  }

  function Next(setup: Setup, w: World, a: Action): World {
    match a
    case BeginApply(r) =>
      if r in w.runners then w
      else w.(runners := w.runners[r := Applying(w.recorded, Pending(setup, w.recorded, 0), 0)])
    case BeginBaseline(r, upto) =>
      if r in w.runners then w
      else
        (match Cutoff(setup, upto, 0)
         case None => w.(runners := w.runners[r := Refused])
         case Some(cutoff) =>
           if cutoff < |setup.files| then
             w.(runners := w.runners[r := Marking(cutoff, ToMark(setup, w.recorded, 0, cutoff), 0)])
           else w)
    case Advance(r, sqlSucceeds) =>
      if r !in w.runners then w
      else AdvanceRunner(setup, w, r, sqlSucceeds)
  }

  function Run(setup: Setup, w: World, actions: seq<Action>): World
    decreases |actions|
  {
    if actions == [] then w else Run(setup, Next(setup, w, actions[0]), actions[1..])
  }

  // --- the invariant ------------------------------------------------------

  predicate Increasing(s: seq<nat>) {
    forall i, j :: 0 <= i < j < |s| ==> s[i] < s[j]
  }

  // Every file before position k has been dealt with.
  predicate SettledBelow(setup: Setup, w: World, k: nat)
    requires k <= |setup.files|
  {
    forall i :: 0 <= i < k ==> setup.Skipped(i) || setup.files[i] in w.recorded
  }

  predicate RunnerInv(setup: Setup, w: World, r: Runner) {
    match r
    case Applying(seen, plan, next) =>
      && seen <= w.recorded && plan == Pending(setup, seen, 0) && next <= |plan|
      && forall j :: 0 <= j < next ==> plan[j] in w.executed
    case Applied(seen, plan, next, success) =>
      && seen <= w.recorded && plan == Pending(setup, seen, 0) && next <= |plan|
      && (forall j :: 0 <= j < next ==> plan[j] in w.executed)
      && (success <==> next == |plan|)
    case Marking(cutoff, todo, next) =>
      && cutoff < |setup.files| && next <= |todo| && forall k <- todo :: k <= cutoff
    case Marked(cutoff) => cutoff < |setup.files|
    case Refused => true
  }

  predicate Inv(setup: Setup, w: World) {
    && (forall k <- w.executed :: k < |setup.files| && !setup.Skipped(k) && setup.files[k] in w.recorded &&
                                  SettledBelow(setup, w, k))
    && Increasing(w.executed)
    && (forall k <- w.baselined :: k < |setup.files| && setup.files[k] in w.recorded)
    && (forall v <- w.recorded :: v in w.initial || (exists k <- w.executed :: setup.files[k] == v)
                                  || (exists k <- w.baselined :: setup.files[k] == v))
    && w.initial <= w.recorded
    && (forall k <- w.executed :: setup.files[k] !in w.initial && k !in w.baselined)
    && (forall r <- w.runners :: RunnerInv(setup, w, w.runners[r]))
  }

  // --- pending lists ------------------------------------------------------

  lemma {:induction false} PendingMembers(setup: Setup, seen: set<Version>, k: nat, i: nat)
    requires k <= |setup.files|
    ensures i in Pending(setup, seen, k) <==>
              k <= i < |setup.files| && setup.files[i] !in seen && !setup.Skipped(i)
    decreases |setup.files| - k
  {
    if k < |setup.files| {
      PendingMembers(setup, seen, k + 1, i);
    }
  }

  lemma IncreasingCons(k: nat, rest: seq<nat>)
    requires Increasing(rest) && forall i <- rest :: k < i
    ensures Increasing([k] + rest)
  {
    assert forall j :: 0 <= j < |rest| ==> rest[j] in rest;
  }

  lemma {:induction false} PendingIncreases(setup: Setup, seen: set<Version>, k: nat)
    requires k <= |setup.files|
    ensures Increasing(Pending(setup, seen, k))
    decreases |setup.files| - k
  {
    if k < |setup.files| {
      var rest := Pending(setup, seen, k + 1);
      PendingIncreases(setup, seen, k + 1);
      forall i | i in rest
        ensures k < i
      {
        PendingMembers(setup, seen, k + 1, i);
      }
      IncreasingCons(k, rest);
      assert [] + rest == rest;
    }
  }

  lemma PendingIs(setup: Setup, seen: set<Version>, k: nat)
    requires k <= |setup.files|
    ensures Increasing(Pending(setup, seen, k))
    ensures forall i :: i in Pending(setup, seen, k) <==>
                          k <= i < |setup.files| && setup.files[i] !in seen && (forall prefix <- setup.skip :: !(prefix <= setup.files[i]))
  {
    PendingIncreases(setup, seen, k);
    forall i: nat
      ensures i in Pending(setup, seen, k) <==>
                k <= i < |setup.files| && setup.files[i] !in seen && (forall prefix <- setup.skip :: !(prefix <= setup.files[i]))
    {
      PendingMembers(setup, seen, k, i);
    }
  }

  lemma {:induction false} CutoffIsFirst(setup: Setup, upto: string, k: nat)
    requires k <= |setup.files|
    ensures match Cutoff(setup, upto, k)
            case Some(c) => k <= c < |setup.files| && upto <= setup.files[c] &&
                            forall i :: k <= i < c ==> !(upto <= setup.files[i])
            case None => forall i :: k <= i < |setup.files| ==> !(upto <= setup.files[i])
    decreases |setup.files| - k
  {
    if k < |setup.files| && !(upto <= setup.files[k]) {
      CutoffIsFirst(setup, upto, k + 1);
    }
  }

  lemma {:induction false} ToMarkIs(setup: Setup, seen: set<Version>, k: nat, cutoff: nat)
    requires cutoff < |setup.files| && k <= cutoff + 1
    ensures forall i :: i in ToMark(setup, seen, k, cutoff) <==> k <= i <= cutoff && setup.files[i] !in seen
    decreases cutoff + 1 - k
  {
    if k <= cutoff {
      ToMarkIs(setup, seen, k + 1, cutoff);
    }
  }

  // --- every step keeps the invariant ---------------------------------------

  // When a runner comes to commit file v, everything before v is settled.
  lemma PlanIsSettledUpToNext(setup: Setup, w: World, r: nat)
    requires Inv(setup, w) && r in w.runners && w.runners[r].Applying? && w.runners[r].next < |w.runners[r].plan|
    ensures var v := w.runners[r].plan[w.runners[r].next];
            v < |setup.files| && !setup.Skipped(v) && SettledBelow(setup, w, v)
  {
    var runner := w.runners[r];
    assert RunnerInv(setup, w, runner);
    var v := runner.plan[runner.next];
    PendingIs(setup, runner.seen, 0);
    assert v in runner.plan;
    forall i | 0 <= i < v && !setup.Skipped(i)
      ensures setup.files[i] in w.recorded
    {
      if setup.files[i] !in runner.seen {
        assert i in runner.plan;
        var j :| 0 <= j < |runner.plan| && runner.plan[j] == i;
        assert j < runner.next;
        assert i in w.executed;
      }
    }
  }

  // And v comes after every file committed so far, unless another runner got there first.
  lemma CommitIsNext(setup: Setup, w: World, r: nat)
    requires Inv(setup, w) && r in w.runners && w.runners[r].Applying? && w.runners[r].next < |w.runners[r].plan|
    ensures var v := w.runners[r].plan[w.runners[r].next];
            v < |setup.files| && !setup.Skipped(v) && SettledBelow(setup, w, v) &&
            (setup.files[v] !in w.recorded ==> forall k <- w.executed :: k < v)
  {
    PlanIsSettledUpToNext(setup, w, r);
    var v := w.runners[r].plan[w.runners[r].next];
    forall k | k in w.executed && setup.files[v] !in w.recorded
      ensures k < v
    {
      assert SettledBelow(setup, w, k);
    }
  }

  lemma IncreasingAppend(s: seq<nat>, v: nat)
    requires Increasing(s) && forall k <- s :: k < v
    ensures Increasing(s + [v])
  {
    assert forall i :: 0 <= i < |s| ==> s[i] in s;
  }

  function CommitPoint(setup: Setup, w: World, r: nat): nat
    requires Inv(setup, w) && r in w.runners && w.runners[r].Applying? && w.runners[r].next < |w.runners[r].plan|
    ensures CommitPoint(setup, w, r) < |setup.files|
  {
    CommitIsNext(setup, w, r);
    w.runners[r].plan[w.runners[r].next]
  }

  // Recording one more version leaves everything settled settled.
  lemma RecordGrows(setup: Setup, w: World, w': World, v: nat)
    requires v < |setup.files| && w'.recorded == w.recorded + {setup.files[v]}
    ensures forall k: nat :: k <= |setup.files| && SettledBelow(setup, w, k) ==> SettledBelow(setup, w', k)
  {
  }

  lemma CommitKeepsInv(setup: Setup, w: World, r: nat)
    requires Inv(setup, w) && setup.Distinct()
    requires r in w.runners && w.runners[r].Applying? && w.runners[r].next < |w.runners[r].plan|
    requires setup.files[CommitPoint(setup, w, r)] !in w.recorded
    ensures Inv(setup, AdvanceRunner(setup, w, r, true))
  {
    CommitIsNext(setup, w, r);
    var runner := w.runners[r];
    var v := runner.plan[runner.next];
    var w' := AdvanceRunner(setup, w, r, true);
    IncreasingAppend(w.executed, v);
    assert v !in w.executed;
    RecordGrows(setup, w, w', v);
    forall x | x in w'.recorded
      ensures x in w'.initial || (exists k <- w'.executed :: setup.files[k] == x) || (exists k <- w'.baselined :: setup.files[k] == x)
    {
      if x == setup.files[v] {
        assert v in w'.executed;
      } else if k :| k in w.executed && setup.files[k] == x {
        assert k in w'.executed;
      }
    }
    assert v !in w.baselined;
    forall s | s in w'.runners
      ensures RunnerInv(setup, w', w'.runners[s])
    {
      if s != r { assert RunnerInv(setup, w, w.runners[s]); }
    }
  }

  lemma MarkKeepsInv(setup: Setup, w: World, r: nat)
    requires Inv(setup, w) && setup.Distinct()
    requires r in w.runners && w.runners[r].Marking? && w.runners[r].next < |w.runners[r].todo|
    requires w.runners[r].todo[w.runners[r].next] < |setup.files|
    requires setup.files[w.runners[r].todo[w.runners[r].next]] !in w.recorded
    ensures Inv(setup, AdvanceRunner(setup, w, r, true))
  {
    var runner := w.runners[r];
    var v := runner.todo[runner.next];
    var w' := AdvanceRunner(setup, w, r, true);
    RecordGrows(setup, w, w', v);
    forall x | x in w'.recorded
      ensures x in w'.initial || (exists k <- w'.executed :: setup.files[k] == x) || (exists k <- w'.baselined :: setup.files[k] == x)
    {
      if x == setup.files[v] {
        assert v in w'.baselined;
      } else if k :| k in w.baselined && setup.files[k] == x {
        assert k in w'.baselined;
      }
    }
    assert v !in w.executed;
    forall s | s in w'.runners
      ensures RunnerInv(setup, w', w'.runners[s])
    {
      if s != r { assert RunnerInv(setup, w, w.runners[s]); }
    }
  }

  // A step that only moves a runner on.
  lemma MoveKeepsInv(setup: Setup, w: World, w': World, r: nat)
    requires Inv(setup, w) && w' == w.(runners := w'.runners)
    requires r in w'.runners && w'.runners == w.runners[r := w'.runners[r]]
    requires RunnerInv(setup, w, w'.runners[r])
    ensures Inv(setup, w')
  {
    forall s | s in w'.runners
      ensures RunnerInv(setup, w', w'.runners[s])
    {
      if s != r { assert RunnerInv(setup, w, w.runners[s]); }
    }
    assert forall k: nat :: k <= |setup.files| && SettledBelow(setup, w, k) ==> SettledBelow(setup, w', k);
  }

  lemma BeginKeepsInv(setup: Setup, w: World, a: Action)
    requires Inv(setup, w) && !a.Advance? && a.runner !in w.runners
    ensures Inv(setup, Next(setup, w, a))
  {
    var w' := Next(setup, w, a);
    match a
    case BeginApply(r) => MoveKeepsInv(setup, w, w', r);
    case BeginBaseline(r, upto) =>
      CutoffIsFirst(setup, upto, 0);
      if Cutoff(setup, upto, 0).Some? {
        ToMarkIs(setup, w.recorded, 0, Cutoff(setup, upto, 0).value);
      }
      MoveKeepsInv(setup, w, w', r);
  }

  lemma AdvanceKeepsInv(setup: Setup, w: World, r: nat, sqlSucceeds: bool)
    requires Inv(setup, w) && setup.Distinct() && r in w.runners
    ensures Inv(setup, AdvanceRunner(setup, w, r, sqlSucceeds))
  {
    var runner := w.runners[r];
    var w' := AdvanceRunner(setup, w, r, sqlSucceeds);
    assert RunnerInv(setup, w, runner);
    assert runner.Marking? ==> forall j :: 0 <= j < |runner.todo| ==> runner.todo[j] in runner.todo;
    if runner.Applying? && runner.next < |runner.plan| && sqlSucceeds && setup.files[CommitPoint(setup, w, r)] !in w.recorded {
      CommitKeepsInv(setup, w, r);
    } else if runner.Marking? && runner.next < |runner.todo| && setup.files[runner.todo[runner.next]] !in w.recorded {
      MarkKeepsInv(setup, w, r);
    } else if runner.Applying? || runner.Marking? {
      MoveKeepsInv(setup, w, w', r);
    }
  }

  lemma NextKeepsInv(setup: Setup, w: World, a: Action)
    requires Inv(setup, w) && setup.Distinct()
    ensures Inv(setup, Next(setup, w, a))
  {
    if a.Advance? && a.runner in w.runners {
      AdvanceKeepsInv(setup, w, a.runner, a.sqlSucceeds);
    } else if !a.Advance? && a.runner !in w.runners {
      BeginKeepsInv(setup, w, a);
    }
  }

  lemma {:induction false} RunKeepsInv(setup: Setup, w: World, actions: seq<Action>)
    requires Inv(setup, w) && setup.Distinct()
    ensures Inv(setup, Run(setup, w, actions))
    decreases |actions|
  {
    if actions != [] {
      NextKeepsInv(setup, w, actions[0]);
      RunKeepsInv(setup, Next(setup, w, actions[0]), actions[1..]);
    }
  }

  // --- what it gives ------------------------------------------------------

  function Fresh(recorded: set<Version>): World {
    World(recorded, recorded, [], [], map[])
  }

  lemma {:induction false} RunKeepsInitial(setup: Setup, w: World, actions: seq<Action>)
    ensures Run(setup, w, actions).initial == w.initial
    decreases |actions|
  {
    if actions != [] {
      RunKeepsInitial(setup, Next(setup, w, actions[0]), actions[1..]);
    }
  }

  // However the runners interleave and wherever they fail: SQL commits in ascending
  // file order, each file at most once, never for a version that was recorded before,
  // baselined or skipped, and only together with its record; and the tracking table
  // holds nothing else.
  lemma CommitsOnceInOrder(setup: Setup, recorded: set<Version>, actions: seq<Action>)
    requires setup.Distinct()
    ensures var w := Run(setup, Fresh(recorded), actions);
            && Increasing(w.executed)
            && (forall k <- w.executed :: k < |setup.files| && setup.files[k] in w.recorded &&
                                          setup.files[k] !in recorded && k !in w.baselined)
            && (forall k, prefix :: k in w.executed && prefix in setup.skip ==> !(prefix <= setup.files[k]))
            && (forall v :: v in w.recorded <==> v in recorded || (exists k <- w.executed :: k < |setup.files| && setup.files[k] == v)
                                                 || (exists k <- w.baselined :: k < |setup.files| && setup.files[k] == v))
  {
    RunKeepsInv(setup, Fresh(recorded), actions);
    RunKeepsInitial(setup, Fresh(recorded), actions);
  }

  // A runner that reports success leaves only skipped versions unrecorded, whoever
  // else was running.
  lemma SuccessLeavesOnlySkipped(setup: Setup, recorded: set<Version>, actions: seq<Action>, r: nat)
    requires setup.Distinct()
    requires r in Run(setup, Fresh(recorded), actions).runners
    ensures var w := Run(setup, Fresh(recorded), actions);
            w.runners[r].Applied? && w.runners[r].success ==>
              forall i :: 0 <= i < |setup.files| && setup.files[i] !in w.recorded ==>
                            exists prefix <- setup.skip :: prefix <= setup.files[i]
  {
    RunKeepsInv(setup, Fresh(recorded), actions);
    var w := Run(setup, Fresh(recorded), actions);
    var runner := w.runners[r];
    assert RunnerInv(setup, w, runner);
    if runner.Applied? && runner.success {
      PendingIs(setup, runner.seen, 0);
      forall i | 0 <= i < |setup.files| && !setup.Skipped(i)
        ensures setup.files[i] in w.recorded
      {
        if setup.files[i] !in runner.seen {
          var j :| 0 <= j < |runner.plan| && runner.plan[j] == i;
          assert runner.plan[j] in w.executed;
        }
      }
    }
  }

  // --- which runner commits what --------------------------------------------

  // The file, if any, whose SQL this action commits on behalf of runner r.
  function CommitAt(setup: Setup, w: World, a: Action, r: nat): seq<nat> {
    var after := Next(setup, w, a).executed;
    if a.Advance? && a.runner == r && |after| > |w.executed| then after[|w.executed|..] else []
  }

  // The files that runner r itself commits, in the order it does.
  function CommitsOf(setup: Setup, w: World, actions: seq<Action>, r: nat): seq<nat>
    decreases |actions|
  {
    if actions == [] then []
    else CommitAt(setup, w, actions[0], r) + CommitsOf(setup, Next(setup, w, actions[0]), actions[1..], r)
  }

  predicate OnPlan(w: World, r: nat) {
    r in w.runners && (w.runners[r].Applying? || w.runners[r].Applied?) ==> w.runners[r].next <= |w.runners[r].plan|
  }

  // The part of its plan a runner has behind it.
  function Behind(w: World, r: nat): seq<nat>
    requires OnPlan(w, r)
  {
    if r in w.runners && (w.runners[r].Applying? || w.runners[r].Applied?) then w.runners[r].plan[..w.runners[r].next] else []
  }

  lemma AdvanceCommitsOwn(setup: Setup, w: World, r: nat, sqlSucceeds: bool)
    requires r in w.runners && OnPlan(w, r)
    ensures var w', a := AdvanceRunner(setup, w, r, sqlSucceeds), Advance(r, sqlSucceeds);
            OnPlan(w', r) && Behind(w', r) == Behind(w, r) + CommitAt(setup, w, a, r)
  {
    var runner, w' := w.runners[r], AdvanceRunner(setup, w, r, sqlSucceeds);
    if runner.Applying? && w'.executed != w.executed {
      assert w'.executed == w.executed + [runner.plan[runner.next]];
      assert runner.plan[..runner.next + 1] == runner.plan[..runner.next] + [runner.plan[runner.next]];
    }
  }

  lemma StepCommitsOwn(setup: Setup, w: World, a: Action, r: nat)
    requires OnPlan(w, r)
    ensures var w' := Next(setup, w, a);
            OnPlan(w', r) && Behind(w', r) == Behind(w, r) + CommitAt(setup, w, a, r)
  {
    if a.Advance? && a.runner == r && r in w.runners {
      AdvanceCommitsOwn(setup, w, r, a.sqlSucceeds);
    } else {
      assert CommitAt(setup, w, a, r) == [];
    }
  }

  lemma Regroup(x: seq<nat>, y: seq<nat>, z: seq<nat>)
    ensures (x + y) + z == x + (y + z)
  {
  }

  lemma {:induction false} RunCommitsOwn(setup: Setup, w: World, actions: seq<Action>, r: nat)
    requires OnPlan(w, r)
    ensures var w' := Run(setup, w, actions);
            OnPlan(w', r) && Behind(w', r) == Behind(w, r) + CommitsOf(setup, w, actions, r)
    decreases |actions|
  {
    if actions != [] {
      var w1 := Next(setup, w, actions[0]);
      StepCommitsOwn(setup, w, actions[0], r);
      RunCommitsOwn(setup, w1, actions[1..], r);
      var first, later := CommitAt(setup, w, actions[0], r), CommitsOf(setup, w1, actions[1..], r);
      assert Run(setup, w, actions) == Run(setup, w1, actions[1..]);
      assert CommitsOf(setup, w, actions, r) == first + later;
      Regroup(Behind(w, r), first, later);
    }
  }

  lemma AppliedRunnerIs(setup: Setup, w: World, r: nat)
    requires Inv(setup, w) && r in w.runners && w.runners[r].Applied?
    ensures var runner := w.runners[r];
            && runner.plan == Pending(setup, runner.seen, 0) && Increasing(runner.plan) && runner.next <= |runner.plan|
            && (runner.success <==> runner.next == |runner.plan|)
  {
    assert RunnerInv(setup, w, w.runners[r]);
    PendingIs(setup, w.runners[r].seen, 0);
  }

  // Whatever the others do, a runner that has stopped has itself committed exactly the
  // files of its plan before the one it stopped at, in ascending order: all of them if
  // and only if it reports success.
  lemma CommitsAPrefixOfItsPlan(setup: Setup, recorded: set<Version>, actions: seq<Action>, r: nat)
    requires setup.Distinct()
    requires r in Run(setup, Fresh(recorded), actions).runners && Run(setup, Fresh(recorded), actions).runners[r].Applied?
    ensures var runner := Run(setup, Fresh(recorded), actions).runners[r];
            && runner.plan == Pending(setup, runner.seen, 0) && Increasing(runner.plan) && runner.next <= |runner.plan|
            && CommitsOf(setup, Fresh(recorded), actions, r) == runner.plan[..runner.next]
            && (runner.success <==> runner.next == |runner.plan|)
  {
    assert Inv(setup, Run(setup, Fresh(recorded), actions)) by {
      RunKeepsInv(setup, Fresh(recorded), actions);
    }
    AppliedRunnerIs(setup, Run(setup, Fresh(recorded), actions), r);
    RunCommitsOwn(setup, Fresh(recorded), actions, r);
    assert Behind(Fresh(recorded), r) == [];
  }

  // A runner that has stopped stays as it is and commits nothing over any later run.
  lemma {:induction false} StoppedStaysStopped(setup: Setup, w: World, actions: seq<Action>, r: nat)
    requires r in w.runners && !w.runners[r].Applying? && !w.runners[r].Marking?
    ensures var w' := Run(setup, w, actions); r in w'.runners && w'.runners[r] == w.runners[r]
    ensures CommitsOf(setup, w, actions, r) == []
    decreases |actions|
  {
    if actions != [] {
      StoppedStaysStopped(setup, Next(setup, w, actions[0]), actions[1..], r);
    }
  }

  predicate Failed(w: World, r: nat) {
    r in w.runners && w.runners[r].Applied? && !w.runners[r].success
  }

  // A runner stops short only at the moment it comes to a file whose SQL fails, or whose
  // version is already recorded by then; `i` is the action at which it does.
  lemma {:induction false} FailureHasACause(setup: Setup, w: World, actions: seq<Action>, r: nat) returns (i: nat)
    requires Inv(setup, w) && setup.Distinct() && !Failed(w, r) && Failed(Run(setup, w, actions), r)
    ensures i < |actions| && r in Run(setup, w, actions[..i]).runners
    ensures var before, runner := Run(setup, w, actions[..i]), Run(setup, w, actions).runners[r];
            && runner.next < |runner.plan| && runner.plan[runner.next] < |setup.files|
            && before.runners[r] == Applying(runner.seen, runner.plan, runner.next)
            && (actions[i] == Advance(r, false) ||
                (actions[i] == Advance(r, true) && setup.files[runner.plan[runner.next]] in before.recorded))
    decreases |actions|
  {
    assert actions != [];
    var w1 := Next(setup, w, actions[0]);
    NextKeepsInv(setup, w, actions[0]);
    if Failed(w1, r) {
      i := 0;
      CommitIsNext(setup, w, r);
      StoppedStaysStopped(setup, w1, actions[1..], r);
      assert Run(setup, w, actions[..0]) == w;
    } else {
      var j := FailureHasACause(setup, w1, actions[1..], r);
      i := j + 1;
      assert actions[..i][0] == actions[0] && actions[..i][1..] == actions[1..][..j];
      assert Run(setup, w, actions[..i]) == Run(setup, w1, actions[1..][..j]);
    }
  }

  predicate WithinCutoff(setup: Setup, upto: string, k: nat) {
    var cutoff := Cutoff(setup, upto, 0);
    cutoff.Some? && k <= cutoff.value
  }

  // Baselining never records a file past the first match of a prefix it was given.
  predicate Given(setup: Setup, actions: seq<Action>, k: nat) {
    exists i :: 0 <= i < |actions| && actions[i].BeginBaseline? && WithinCutoff(setup, actions[i].upto, k)
  }

  predicate MarksWithin(setup: Setup, w: World, actions: seq<Action>) {
    && (forall k <- w.baselined :: Given(setup, actions, k))
    && (forall r <- w.runners :: w.runners[r].Marking? ==> forall k <- w.runners[r].todo :: Given(setup, actions, k))
  }

  lemma StepMarksWithin(setup: Setup, w: World, a: Action, actions: seq<Action>)
    requires MarksWithin(setup, w, actions) && a in actions
    ensures MarksWithin(setup, Next(setup, w, a), actions)
  {
    if a.BeginBaseline? && a.runner !in w.runners {
      CutoffIsFirst(setup, a.upto, 0);
      if Cutoff(setup, a.upto, 0).Some? {
        var cutoff := Cutoff(setup, a.upto, 0).value;
        ToMarkIs(setup, w.recorded, 0, cutoff);
        var i :| 0 <= i < |actions| && actions[i] == a;
        forall k | k in ToMark(setup, w.recorded, 0, cutoff)
          ensures Given(setup, actions, k)
        {
          assert actions[i].BeginBaseline? && WithinCutoff(setup, actions[i].upto, k);
        }
      }
    }
  }

  lemma {:induction false} RunMarksWithin(setup: Setup, w: World, done: seq<Action>, actions: seq<Action>)
    requires MarksWithin(setup, w, done + actions)
    ensures MarksWithin(setup, Run(setup, w, actions), done + actions)
    decreases |actions|
  {
    if actions != [] {
      assert done + actions == (done + [actions[0]]) + actions[1..];
      StepMarksWithin(setup, w, actions[0], done + actions);
      RunMarksWithin(setup, Next(setup, w, actions[0]), done + [actions[0]], actions[1..]);
    }
  }

  predicate FirstMatch(setup: Setup, upto: string, first: nat) {
    first < |setup.files| && upto <= setup.files[first] && forall j :: 0 <= j < first ==> !(upto <= setup.files[j])
  }

  lemma BaselineStopsAtFirstMatch(setup: Setup, recorded: set<Version>, actions: seq<Action>, k: nat)
    requires k in Run(setup, Fresh(recorded), actions).baselined
    ensures exists i, first :: 0 <= i < |actions| && actions[i].BeginBaseline? &&
                               k <= first && FirstMatch(setup, actions[i].upto, first)
  {
    assert Given(setup, actions, k) by {
      assert [] + actions == actions;
      RunMarksWithin(setup, Fresh(recorded), [], actions);
    }
    var i :| 0 <= i < |actions| && actions[i].BeginBaseline? && WithinCutoff(setup, actions[i].upto, k);
    CutoffIsFirst(setup, actions[i].upto, 0);
    assert FirstMatch(setup, actions[i].upto, Cutoff(setup, actions[i].upto, 0).value);
  }
}
