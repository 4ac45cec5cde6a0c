/**
 The two commands of the migration runner in their own form: loops that execute a
 file and insert its row in one transaction, or insert rows only. Run alone, each
 is a run of the interleaved machine, so the machine's guarantees cover it.
 */
module MigrationCommands {
  import opened Common
  import opened Migrations

  lemma {:induction false} RunMore(setup: Setup, w: World, actions: seq<Action>, last: Action)
    ensures Run(setup, w, actions + [last]) == Next(setup, Run(setup, w, actions), last)
    decreases |actions|
  {
    if actions == [] {
      assert [] + [last] == [last];
      assert Run(setup, Next(setup, w, last), [last][1..]) == Next(setup, w, last);
    } else {
      assert (actions + [last])[1..] == actions[1..] + [last];
      RunMore(setup, Next(setup, w, actions[0]), actions[1..], last);
    }
  }

  lemma RunOne(setup: Setup, w: World, a: Action)
    ensures Run(setup, w, [a]) == Next(setup, w, a)
  {
    assert [] + [a] == [a];
    RunMore(setup, w, [], a);
  }

  predicate InRange(setup: Setup, ks: seq<nat>) {
    forall j :: 0 <= j < |ks| ==> ks[j] < |setup.files|
  }

  function Versions(setup: Setup, ks: seq<nat>): set<Version> {
    set k | k in ks && k < |setup.files| :: setup.files[k]
  }

  lemma VersionsGrow(setup: Setup, ks: seq<nat>, i: nat)
    requires InRange(setup, ks) && i < |ks|
    ensures Versions(setup, ks[..i + 1]) == Versions(setup, ks[..i]) + {setup.files[ks[i]]}
  {
    assert ks[..i + 1] == ks[..i] + [ks[i]];
  }

  lemma NotYet(setup: Setup, applied: set<Version>, plan: seq<nat>, i: nat)
    requires setup.Distinct() && plan == Pending(setup, applied, 0) && i < |plan|
    ensures plan[i] < |setup.files| && setup.files[plan[i]] !in applied + Versions(setup, plan[..i])
  {
    PendingIs(setup, applied, 0);
    assert plan[i] in plan;
    forall k | k in plan[..i]
      ensures k < plan[i]
    {
      var j :| 0 <= j < i && plan[j] == k;
    }
  }

  lemma PendingInRange(setup: Setup, seen: set<Version>)
    ensures InRange(setup, Pending(setup, seen, 0))
  {
    PendingIs(setup, seen, 0);
    var plan := Pending(setup, seen, 0);
    assert forall j :: 0 <= j < |plan| ==> plan[j] in plan;
  }

  // A lone runner that started in `start` has applied the first i files of its plan.
  ghost predicate AppliedSoFar(setup: Setup, start: World, w: World, me: nat, plan: seq<nat>, i: nat, trace: seq<Action>)
    requires i <= |plan|
  {
    && w == Run(setup, start, trace)
    && me in w.runners && w.runners[me] == Applying(start.recorded, plan, i)
    && w.executed == start.executed + plan[..i] && w.baselined == start.baselined
    && w.recorded == start.recorded + Versions(setup, plan[..i])
  }

  lemma ApplyBegins(setup: Setup, start: World, me: nat)
    requires me !in start.runners
    ensures var plan := Pending(setup, start.recorded, 0);
            AppliedSoFar(setup, start, start.(runners := start.runners[me := Applying(start.recorded, plan, 0)]), me, plan, 0, [BeginApply(me)])
  {
    RunOne(setup, start, BeginApply(me));
    assert Versions(setup, []) == {};
  }

  lemma ApplyGoesOn(setup: Setup, start: World, w: World, w': World, me: nat, plan: seq<nat>, i: nat,
                    trace: seq<Action>, trace': seq<Action>)
    requires InRange(setup, plan) && i < |plan| && AppliedSoFar(setup, start, w, me, plan, i, trace)
    requires w' == Run(setup, start, trace') && me in w'.runners && w'.runners[me] == Applying(start.recorded, plan, i + 1)
    requires w'.recorded == w.recorded + {setup.files[plan[i]]} && w'.executed == w.executed + [plan[i]]
    requires w'.baselined == w.baselined
    ensures AppliedSoFar(setup, start, w', me, plan, i + 1, trace')
  {
    VersionsGrow(setup, plan, i);
    assert plan[..i + 1] == plan[..i] + [plan[i]];
  }

  lemma ApplyEnds(setup: Setup, start: World, w: World, me: nat, plan: seq<nat>, trace: seq<Action>)
    requires AppliedSoFar(setup, start, w, me, plan, |plan|, trace)
    ensures w.(runners := w.runners[me := Applied(start.recorded, plan, |plan|, true)])
            == Run(setup, start, trace + [Advance(me, true)])
  {
    RunMore(setup, start, trace, Advance(me, true));
  }

  // A lone runner that started in `start` has recorded the first i files of its list.
  ghost predicate MarkedSoFar(setup: Setup, start: World, w: World, me: nat, cutoff: nat, todo: seq<nat>, i: nat, trace: seq<Action>)
    requires i <= |todo|
  {
    && w == Run(setup, start, trace)
    && me in w.runners && w.runners[me] == Marking(cutoff, todo, i)
    && w.executed == start.executed
    && w.recorded == start.recorded + Versions(setup, todo[..i])
  }

  lemma MarkingBegins(setup: Setup, start: World, upto: string, me: nat)
    requires me !in start.runners
    ensures var begun := Run(setup, start, [BeginBaseline(me, upto)]);
            match Cutoff(setup, upto, 0)
            case None => begun == start.(runners := start.runners[me := Refused])
            case Some(cutoff) =>
              && cutoff < |setup.files|
              && var todo := ToMark(setup, start.recorded, 0, cutoff);
                 && begun == start.(runners := start.runners[me := Marking(cutoff, todo, 0)])
                 && MarkedSoFar(setup, start, begun, me, cutoff, todo, 0, [BeginBaseline(me, upto)])
  {
    CutoffIsFirst(setup, upto, 0);
    RunOne(setup, start, BeginBaseline(me, upto));
    assert Versions(setup, []) == {};
  }

  lemma ToMarkInRange(setup: Setup, seen: set<Version>, cutoff: nat)
    requires cutoff < |setup.files|
    ensures InRange(setup, ToMark(setup, seen, 0, cutoff))
  {
    ToMarkIs(setup, seen, 0, cutoff);
    var todo := ToMark(setup, seen, 0, cutoff);
    assert forall j :: 0 <= j < |todo| ==> todo[j] in todo;
  }

  lemma MarkedAll(setup: Setup, applied: set<Version>, todo: seq<nat>, cutoff: nat)
    requires cutoff < |setup.files| && InRange(setup, todo)
    requires forall i :: i in todo <==> 0 <= i <= cutoff && setup.files[i] !in applied
    ensures applied + Versions(setup, todo) == applied + set k | 0 <= k <= cutoff :: setup.files[k]
  {
    var all := set k | 0 <= k <= cutoff :: setup.files[k];
    forall v | v in all && v !in applied
      ensures v in Versions(setup, todo)
    {
      var k :| 0 <= k <= cutoff && setup.files[k] == v;
      assert k in todo;
    }
  }

  lemma MarkingEnds(setup: Setup, start: World, w: World, me: nat, cutoff: nat, todo: seq<nat>, trace: seq<Action>)
    requires cutoff < |setup.files| && todo == ToMark(setup, start.recorded, 0, cutoff)
    requires MarkedSoFar(setup, start, w, me, cutoff, todo, |todo|, trace)
    ensures w.(runners := w.runners[me := Marked(cutoff)]) == Run(setup, start, trace + [Advance(me, true)])
    ensures w.recorded == start.recorded + set k | 0 <= k <= cutoff :: setup.files[k]
  {
    RunMore(setup, start, trace, Advance(me, true));
    assert todo[..|todo|] == todo;
    ToMarkIs(setup, start.recorded, 0, cutoff);
    ToMarkInRange(setup, start.recorded, cutoff);
    MarkedAll(setup, start.recorded, todo, cutoff);
  }

  class Database {
    ghost const initial: set<Version>
    var recorded: set<Version>
    var executed: seq<nat>
    var baselined: seq<nat>
    ghost var runners: map<nat, Runner>

    ghost function Here(): World
      reads this
    {
      World(initial, recorded, executed, baselined, runners)
    }

    constructor (recorded: set<Version>)
      ensures Here() == Fresh(recorded)
    {
      initial, this.recorded, executed, baselined, runners := recorded, recorded, [], [], map[];
    }

    // One transaction: the file's SQL and its row commit together, or neither does.
    method CommitFile(setup: Setup, sqlSucceeds: bool, ghost me: nat, ghost start: World, plan: seq<nat>, i: nat, ghost trace: seq<Action>)
      returns (ok: bool, ghost trace': seq<Action>)
      requires setup.Distinct() && plan == Pending(setup, start.recorded, 0) && i < |plan|
      requires AppliedSoFar(setup, start, Here(), me, plan, i, trace)
      modifies this
      ensures ok <==> sqlSucceeds
      ensures ok ==> AppliedSoFar(setup, start, Here(), me, plan, i + 1, trace')
      ensures !ok ==> Here() == Run(setup, start, trace') && Here() == old(Here()).(runners := runners)
    {
      PendingInRange(setup, start.recorded);
      NotYet(setup, start.recorded, plan, i);
      RunMore(setup, start, trace, Advance(me, sqlSucceeds));
      trace' := trace + [Advance(me, sqlSucceeds)];
      var k := plan[i];
      ok := sqlSucceeds && setup.files[k] !in recorded;
      if ok {
        executed := executed + [k];
        recorded := recorded + {setup.files[k]};
        runners := runners[me := Applying(start.recorded, plan, i + 1)];
        ApplyGoesOn(setup, start, old(Here()), Here(), me, plan, i, trace, trace');
      } else {
        runners := runners[me := Applied(start.recorded, plan, i, false)];
      }
    }

    // Apply everything pending, in order, until a file fails. `sql(k)` says whether file k's SQL runs.
    method CmdApply(setup: Setup, sql: nat -> bool, ghost me: nat)
      returns (code: int, ghost plan: seq<nat>, ghost committed: nat, ghost trace: seq<Action>)
      requires setup.Distinct() && me !in runners
      modifies this
      ensures Here() == Run(setup, old(Here()), trace)
      ensures plan == Pending(setup, old(recorded), 0) && InRange(setup, plan) && committed <= |plan|
      ensures executed == old(executed) + plan[..committed] && baselined == old(baselined)
      ensures recorded == old(recorded) + Versions(setup, plan[..committed])
      ensures forall j :: 0 <= j < committed ==> sql(plan[j])
      ensures code == 0 <==> committed == |plan|
      ensures code != 0 ==> code == 1 && !sql(plan[committed])
    {
      var applied := recorded;
      var pending := Pending(setup, applied, 0);
      ghost var start := Here();
      plan, committed, trace := pending, 0, [BeginApply(me)];
      PendingInRange(setup, applied);
      ApplyBegins(setup, start, me);
      runners := runners[me := Applying(applied, plan, 0)];
      for i := 0 to |pending|
        invariant committed == i
        invariant AppliedSoFar(setup, start, Here(), me, plan, i, trace)
        invariant forall j :: 0 <= j < i ==> sql(plan[j])
      {
        var ok;
        ok, trace := CommitFile(setup, sql(pending[i]), me, start, pending, i, trace);
        if !ok {
          return 1, plan, committed, trace;
        }
        committed := i + 1;
      }
      ApplyEnds(setup, start, Here(), me, plan, trace);
      trace := trace + [Advance(me, true)];
      runners := runners[me := Applied(applied, plan, |plan|, true)];
      return 0, plan, committed, trace;
    }

    // Insert a row, unless the version already has one.
    method MarkFile(setup: Setup, ghost me: nat, ghost start: World, ghost cutoff: nat, todo: seq<nat>, i: nat, ghost trace: seq<Action>)
      returns (ghost trace': seq<Action>)
      requires InRange(setup, todo) && i < |todo|
      requires MarkedSoFar(setup, start, Here(), me, cutoff, todo, i, trace)
      modifies this
      ensures MarkedSoFar(setup, start, Here(), me, cutoff, todo, i + 1, trace')
    {
      VersionsGrow(setup, todo, i);
      RunMore(setup, start, trace, Advance(me, true));
      trace' := trace + [Advance(me, true)];
      var k := todo[i];
      if setup.files[k] !in recorded {
        recorded := recorded + {setup.files[k]};
        baselined := baselined + [k];
      }
      runners := runners[me := Marking(cutoff, todo, i + 1)];
    }

    // Record everything up to the first match of `upto` without running it.
    method CmdBaseline(setup: Setup, upto: string, ghost me: nat) returns (code: int, ghost trace: seq<Action>)
      requires setup.Distinct() && me !in runners
      modifies this
      ensures Here() == Run(setup, old(Here()), trace)
      ensures executed == old(executed)
      ensures match Cutoff(setup, upto, 0)
              case None => code == 2 && recorded == old(recorded)
              case Some(cutoff) =>
                code == 0 && cutoff < |setup.files| &&
                recorded == old(recorded) + set k | 0 <= k <= cutoff :: setup.files[k]
    {
      ghost var start := Here();
      trace := [BeginBaseline(me, upto)];
      MarkingBegins(setup, start, upto, me);
      var found := Cutoff(setup, upto, 0);
      if found.None? {
        runners := runners[me := Refused];
        return 2, trace;
      }
      var cutoff := found.value;
      var todo := ToMark(setup, recorded, 0, cutoff);
      ToMarkInRange(setup, recorded, cutoff);
      runners := runners[me := Marking(cutoff, todo, 0)];
      for i := 0 to |todo|
        invariant MarkedSoFar(setup, start, Here(), me, cutoff, todo, i, trace)
      {
        trace := MarkFile(setup, me, start, cutoff, todo, i, trace);
      }
      MarkingEnds(setup, start, Here(), me, cutoff, todo, trace);
      trace := trace + [Advance(me, true)];
      runners := runners[me := Marked(cutoff)];
      return 0, trace;
    }
  }
}
