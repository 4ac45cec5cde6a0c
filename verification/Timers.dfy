/**
 Task timers (backend/app/routers/task_timers.py, backend/app/routers/timesheet.py):
 one row per task and assignee, started and stopped by its current
 assignee only, corrected by the owner. Time is in microseconds, banked time in
 whole seconds.
 */
module Timers {
  import opened Common

  type Id = nat

  const MICROS: int := 1_000_000

  datatype Key = Key(task: Id, assignee: Id)

  datatype Timer = Timer(running: bool, banked: int, startedAt: Option<int>, lastStoppedAt: Option<int>)

  // Tasks with their current assignee, and every timer row.
  datatype Sheet = Sheet(assignees: map<Id, Option<Id>>, timers: map<Key, Timer>)

  datatype Action =
    | Start(user: Id, task: Id)
    | Stop(user: Id, task: Id)
    | Reassign(task: Id, to: Option<Id>)
    | Correct(task: Id, assignee: Id, seconds: nat)
    | DeleteTask(task: Id)  // the rows go with it

  datatype Refused = NotFound | NotYours | AlreadyRunningElsewhere

  datatype Timed = Timed(action: Action, at: int)

  function Elapsed(from: int, now: int): int {
    if now <= from then 0 else (now - from) / MICROS
  }

  predicate RunningElsewhere(s: Sheet, user: Id, task: Id) {
    exists k <- s.timers :: k.assignee == user && k.task != task && s.timers[k].running
  }

  function Stopped(t: Timer, now: int): Timer {
    if t.running && t.startedAt.Some?
    then Timer(false, t.banked + Elapsed(t.startedAt.value, now), None, Some(now))
    else t
  }

  function Do(s: Sheet, a: Action, now: int): Result<Sheet, Refused> {
    match a
    case Start(user, task) =>
      if task !in s.assignees then Err(NotFound)
      else if s.assignees[task] != Some(user) then Err(NotYours)
      else if RunningElsewhere(s, user, task) then Err(AlreadyRunningElsewhere)
      else
        var key := Key(task, user);
        var timer := if key in s.timers then s.timers[key] else Timer(false, 0, None, None);
        if timer.running then Ok(s)
        else Ok(s.(timers := s.timers[key := timer.(running := true, startedAt := Some(now))]))
    case Stop(user, task) =>
      if task !in s.assignees then Err(NotFound)
      else if s.assignees[task] != Some(user) then Err(NotYours)
      else
        var key := Key(task, user);
        if key !in s.timers then Ok(s)
        else Ok(s.(timers := s.timers[key := Stopped(s.timers[key], now)]))
    case Reassign(task, to) =>
      if task !in s.assignees then Err(NotFound) else Ok(s.(assignees := s.assignees[task := to]))
    case Correct(task, assignee, seconds) =>
      var key := Key(task, assignee);
      if key !in s.timers then Err(NotFound)
      else Ok(s.(timers := s.timers[key := s.timers[key].(banked := seconds)]))
    case DeleteTask(task) =>
      if task !in s.assignees then Err(NotFound)
      else Ok(Sheet(s.assignees - {task}, map k | k in s.timers && k.task != task :: s.timers[k]))
  }

  function After(s: Sheet, a: Action, now: int): Sheet {
    match Do(s, a, now)
    case Ok(s') => s'
    case Err(_) => s
  }

  function Run(s: Sheet, actions: seq<Timed>): Sheet
    decreases |actions|
  {
    if actions == [] then s else Run(After(s, actions[0].action, actions[0].at), actions[1..])
  }

  predicate InOrder(now: int, actions: seq<Timed>)
    decreases |actions|
  {
    actions != [] ==> now <= actions[0].at && InOrder(actions[0].at, actions[1..])
  }

  function Clock(now: int, actions: seq<Timed>): int {
    if actions == [] then now else actions[|actions| - 1].at
  }

  // --- the invariant ------------------------------------------------------

  predicate Valid(s: Sheet, clock: int) {
    && (forall k, l :: k in s.timers && l in s.timers && s.timers[k].running && s.timers[l].running
                       ==> k.assignee == l.assignee ==> k == l)
    && (forall k <- s.timers :: s.timers[k].running <==> s.timers[k].startedAt.Some?)
    && (forall k <- s.timers :: s.timers[k].startedAt.Some? ==> s.timers[k].startedAt.value <= clock)
    && (forall k <- s.timers :: s.timers[k].banked >= 0)
  }

  lemma StepKeepsValid(s: Sheet, a: Action, clock: int, now: int)
    requires Valid(s, clock) && clock <= now
    ensures Valid(After(s, a, now), now)
  {
  }

  // However starts, stops, reassignments, corrections and deletions interleave: one
  // running timer per assignee, and a timer runs exactly when it has a start.
  lemma {:induction false} EveryReachableSheetIsValid(s: Sheet, clock: int, actions: seq<Timed>)
    requires Valid(s, clock) && InOrder(clock, actions)
    ensures Valid(Run(s, actions), Clock(clock, actions))
    decreases |actions|
  {
    if actions != [] {
      StepKeepsValid(s, actions[0].action, clock, actions[0].at);
      EveryReachableSheetIsValid(After(s, actions[0].action, actions[0].at), actions[0].at, actions[1..]);
    }
  }

  // --- what is shown ------------------------------------------------------

  // The live total of the timesheet.
  function Shown(t: Timer, now: int): int {
    t.banked + if t.running && t.startedAt.Some? then Elapsed(t.startedAt.value, now) else 0
  }

  function ShownFor(s: Sheet, key: Key, now: int): int {
    if key in s.timers then Shown(s.timers[key], now) else 0
  }

  // Starting or stopping never makes the displayed total jump, for anybody.
  lemma ControlsKeepTotals(s: Sheet, a: Action, clock: int, now: int, key: Key)
    requires Valid(s, clock) && clock <= now && (a.Start? || a.Stop? || a.Reassign?)
    ensures ShownFor(After(s, a, now), key, now) == ShownFor(s, key, now)
  {
  }

  // What is shown is what is banked, until a second of running has passed.
  lemma ShownStartsFromBanked(t: Timer, now: int)
    requires t.running <==> t.startedAt.Some?
    requires t.running ==> now < t.startedAt.value + 1_000_000
    ensures Shown(t, now) == t.banked
  {
  }

  // A stopped timer's total stands still; a running one's follows the clock.
  lemma TotalsFollowTheClock(t: Timer, now: int, later: nat)
    requires t.running <==> t.startedAt.Some?
    requires t.running ==> t.startedAt.value <= now
    ensures !t.running ==> Shown(t, now + later * MICROS) == Shown(t, now)
    ensures t.running ==> Shown(t, now + later * MICROS) == Shown(t, now) + later
  {
    if t.running {
      var e := now - t.startedAt.value;
      assert (e + later * MICROS) / MICROS == e / MICROS + later;
    }
  }

  lemma RepeatingIsANoOp(s: Sheet, a: Action, now: int, later: int)
    requires (a.Start? || a.Stop?) && Do(s, a, now).Ok?
    ensures Do(After(s, a, now), a, later) == Ok(After(s, a, now))
  {
    var s' := After(s, a, now);
    assert s'.timers.Keys == s.timers.Keys + (if a.Start? then {Key(a.task, a.user)} else {});
    if a.Start? {
      assert forall k <- s'.timers :: k.task != a.task ==> k in s.timers && s'.timers[k] == s.timers[k];
      assert !RunningElsewhere(s', a.user, a.task);
    } else if Key(a.task, a.user) in s.timers {
      assert s'.timers == s'.timers[Key(a.task, a.user) := Stopped(s'.timers[Key(a.task, a.user)], later)];
    }
  }

  // --- what each request sets -------------------------------------------------

  predicate OthersStay(s: Sheet, s': Sheet, key: Key) {
    s'.assignees == s.assignees && s'.timers.Keys - {key} == s.timers.Keys - {key} &&
    forall k <- s.timers :: k != key ==> k in s'.timers && s'.timers[k] == s.timers[k]
  }

  // Only the assignee starts a timer, and only with none of theirs running on another
  // task; it then runs from now, or on if it was running, with what it had banked.
  lemma StartTakesEffect(s: Sheet, user: Id, task: Id, now: int)
    ensures Do(s, Start(user, task), now).Ok? <==>
              task in s.assignees && s.assignees[task] == Some(user) &&
              forall k <- s.timers :: k.assignee == user && s.timers[k].running ==> k.task == task
    ensures Do(s, Start(user, task), now).Ok? ==>
              var s', key := After(s, Start(user, task), now), Key(task, user);
              && OthersStay(s, s', key) && key in s'.timers
              && s'.timers[key] == (if key !in s.timers then Timer(true, 0, Some(now), None)
                                    else if s.timers[key].running then s.timers[key]
                                    else Timer(true, s.timers[key].banked, Some(now), s.timers[key].lastStoppedAt))
  {
  }

  // Only the assignee stops a timer; the whole seconds since its start are banked.
  lemma StopTakesEffect(s: Sheet, user: Id, task: Id, clock: int, now: int)
    requires Valid(s, clock) && clock <= now
    ensures Do(s, Stop(user, task), now).Ok? <==> task in s.assignees && s.assignees[task] == Some(user)
    ensures Do(s, Stop(user, task), now).Ok? ==>
              var s', key := After(s, Stop(user, task), now), Key(task, user);
              if key !in s.timers || !s.timers[key].running then s' == s
              else
                && OthersStay(s, s', key) && key in s'.timers
                && var before, after := s.timers[key], s'.timers[key];
                   && !after.running && after.startedAt == None && after.lastStoppedAt == Some(now)
                   && 0 <= (now - before.startedAt.value) - 1_000_000 * (after.banked - before.banked) < 1_000_000
  {
  }

  // A correction replaces the banked seconds of one timer, running or not; a reassignment
  // changes one assignee; deleting a task takes its timers with it. Nothing else moves.
  lemma OwnerRequestsTakeEffect(s: Sheet, task: Id, person: Id, to: Option<Id>, seconds: nat, now: int)
    ensures var key := Key(task, person);
            (Do(s, Correct(task, person, seconds), now).Ok? <==> key in s.timers) &&
            (key in s.timers ==>
               var s', before := After(s, Correct(task, person, seconds), now), s.timers[key];
               OthersStay(s, s', key) && key in s'.timers &&
               s'.timers[key] == Timer(before.running, seconds, before.startedAt, before.lastStoppedAt))
    ensures (Do(s, Reassign(task, to), now).Ok? <==> task in s.assignees) &&
            (task in s.assignees ==>
               var s' := After(s, Reassign(task, to), now);
               s'.timers == s.timers && s'.assignees == s.assignees[task := to])
    ensures (Do(s, DeleteTask(task), now).Ok? <==> task in s.assignees) &&
            (task in s.assignees ==>
               var s' := After(s, DeleteTask(task), now);
               && task !in s'.assignees
               && (forall t <- s.assignees :: t != task ==> t in s'.assignees && s'.assignees[t] == s.assignees[t])
               && (forall k :: k in s'.timers <==> k in s.timers && k.task != task)
               && (forall k <- s'.timers :: s'.timers[k] == s.timers[k]))
  {
  }

  // --- seconds lost to rounding --------------------------------------------

  // The finished segments of one timer over a run, and the time they really took.
  function Segment(s: Sheet, a: Action, now: int, key: Key): (nat, int) {
    if a == Stop(key.assignee, key.task) && Do(s, a, now).Ok? && key in s.timers &&
       s.timers[key].running && s.timers[key].startedAt.Some?
    then (1, now - s.timers[key].startedAt.value)
    else (0, 0)
  }

  function Segments(s: Sheet, actions: seq<Timed>, key: Key): (nat, int)
    decreases |actions|
  {
    if actions == [] then (0, 0)
    else
      var first := Segment(s, actions[0].action, actions[0].at, key);
      var rest := Segments(After(s, actions[0].action, actions[0].at), actions[1..], key);
      (first.0 + rest.0, first.1 + rest.1)
  }

  function Banked(s: Sheet, key: Key): int {
    if key in s.timers then s.timers[key].banked else 0
  }

  predicate Leaves(a: Action, key: Key) {
    !(a.Correct? && a.task == key.task && a.assignee == key.assignee) && !(a.DeleteTask? && a.task == key.task)
  }

  lemma StepLoses(s: Sheet, a: Action, clock: int, now: int, key: Key)
    requires Valid(s, clock) && clock <= now && Leaves(a, key)
    ensures var (segments, worked) := Segment(s, a, now, key);
            0 <= worked - MICROS * (Banked(After(s, a, now), key) - Banked(s, key)) <= segments * (MICROS - 1)
  {
  }

  // Without an owner's correction, k finished segments bank the time they took less
  // at most k times 999 999 microseconds: under a second for each.
  lemma {:induction false} SegmentsLoseUnderASecondEach(s: Sheet, clock: int, actions: seq<Timed>, key: Key)
    requires Valid(s, clock) && InOrder(clock, actions) && forall t <- actions :: Leaves(t.action, key)
    ensures var (segments, worked) := Segments(s, actions, key);
            0 <= worked - MICROS * (Banked(Run(s, actions), key) - Banked(s, key)) <= segments * (MICROS - 1)
    decreases |actions|
  {
    if actions != [] {
      var a, now := actions[0].action, actions[0].at;
      assert actions[0] in actions;
      StepKeepsValid(s, a, clock, now);
      StepLoses(s, a, clock, now, key);
      SegmentsLoseUnderASecondEach(After(s, a, now), now, actions[1..], key);
    }
  }

  // --- a timer its owner can no longer stop ---------------------------------

  // An assignee can stop a timer of theirs exactly while that task is still theirs.
  lemma StoppableExactly(s: Sheet, key: Key, clock: int, now: int)
    requires Valid(s, clock) && key in s.timers && s.timers[key].running
    ensures (key in After(s, Stop(key.assignee, key.task), now).timers &&
             !After(s, Stop(key.assignee, key.task), now).timers[key].running)
            <==> key.task in s.assignees && s.assignees[key.task] == Some(key.assignee)
  {
  }

  predicate Stranded(s: Sheet, key: Key) {
    && key in s.timers && s.timers[key].running
    && key.task in s.assignees && s.assignees[key.task] != Some(key.assignee)
  }

  // Reassigning a task whose timer runs strands it, unless the task goes to the same person.
  lemma ReassigningStrandsExactly(s: Sheet, key: Key, to: Option<Id>, now: int)
    requires key in s.timers && s.timers[key].running && key.task in s.assignees
    ensures Stranded(After(s, Reassign(key.task, to), now), key) <==> to != Some(key.assignee)
  {
  }

  lemma StrandedStep(s: Sheet, a: Action, now: int, key: Key)
    requires Stranded(s, key) && a != Reassign(key.task, Some(key.assignee)) && a != DeleteTask(key.task)
    ensures Stranded(After(s, a, now), key) && After(s, a, now).timers[key].startedAt == s.timers[key].startedAt
  {
  }

  // After a reassignment the old assignee's running timer goes on, and they can start
  // nothing else, until that task comes back to them or is deleted.
  lemma {:induction false} StrandedUntilReturned(s: Sheet, actions: seq<Timed>, key: Key, task: Id, now: int)
    requires Stranded(s, key)
    requires forall t <- actions :: t.action != Reassign(key.task, Some(key.assignee)) && t.action != DeleteTask(key.task)
    ensures var s' := Run(s, actions);
            Stranded(s', key) && s'.timers[key].startedAt == s.timers[key].startedAt &&
            (task != key.task ==> Do(s', Start(key.assignee, task), now).Err?) &&
            After(s', Stop(key.assignee, key.task), now) == s'
    decreases |actions|
  {
    if actions != [] {
      var a, at := actions[0].action, actions[0].at;
      assert actions[0] in actions;
      StrandedStep(s, a, at, key);
      StrandedUntilReturned(After(s, a, at), actions[1..], key, task, now);
    }
  }

  // The shortest such run: 1 starts the timer of task 7, which then goes to 2.
  lemma TwoRequestsStrand()
    ensures var s := Sheet(map[7 := Some(1)], map[]);
            Valid(s, 0) && Stranded(Run(s, [Timed(Start(1, 7), 1), Timed(Reassign(7, Some(2)), 2)]), Key(7, 1))
  {
    var s := Sheet(map[7 := Some(1)], map[]);
    var start, reassign := Timed(Start(1, 7), 1), Timed(Reassign(7, Some(2)), 2);
    var s1 := After(s, start.action, 1);
    assert s1.timers == map[Key(7, 1) := Timer(true, 0, Some(1), None)];
    var s2 := After(s1, reassign.action, 2);
    ReassigningStrandsExactly(s1, Key(7, 1), Some(2), 2);
    assert [start, reassign][1..] == [reassign] && [reassign][1..] == [];
    assert Run(s1, [reassign]) == Run(s2, []) == s2;
  }

  // --- the routers --------------------------------------------------------

  class TimerRouter {
    var assignees: map<Id, Option<Id>>
    var timers: map<Key, Timer>

    ghost function State(): Sheet
      reads this
    {
      Sheet(assignees, timers)
    }

    constructor (assignees: map<Id, Option<Id>>)
      ensures State() == Sheet(assignees, map[]) && forall now :: Valid(State(), now)
    {
      this.assignees, timers := assignees, map[];
    }

    method StartTaskTimer(user: Id, task: Id, now: int) returns (e: Option<Refused>)
      modifies this`timers
      ensures State() == After(old(State()), Start(user, task), now)
      ensures e.Some? <==> Do(old(State()), Start(user, task), now).Err?
    {
      if task !in assignees { return Some(NotFound); }
      if assignees[task] != Some(user) { return Some(NotYours); }
      var keys := timers.Keys;
      while keys != {}
        invariant keys <= timers.Keys
        invariant forall k <- timers.Keys - keys :: !(k.assignee == user && k.task != task && timers[k].running)
        decreases keys
      {
        var k :| k in keys;
        if k.assignee == user && k.task != task && timers[k].running {
          return Some(AlreadyRunningElsewhere);
        }
        keys := keys - {k};
      }
      var key := Key(task, user);
      var timer := if key in timers then timers[key] else Timer(false, 0, None, None);
      if timer.running { return None; }
      timers := timers[key := timer.(running := true, startedAt := Some(now))];
      return None;
    }

    method StopTaskTimer(user: Id, task: Id, now: int) returns (e: Option<Refused>)
      modifies this`timers
      ensures State() == After(old(State()), Stop(user, task), now)
      ensures e.Some? <==> Do(old(State()), Stop(user, task), now).Err?
    {
      if task !in assignees { return Some(NotFound); }
      if assignees[task] != Some(user) { return Some(NotYours); }
      var key := Key(task, user);
      if key !in timers || !timers[key].running || timers[key].startedAt.None? {
        assert key in timers ==> timers[key := timers[key]] == timers;
        return None;
      }
      var timer := timers[key];
      var seconds := Elapsed(timer.startedAt.value, now);
      timers := timers[key := Timer(false, timer.banked + seconds, None, Some(now))];
      return None;
    }

    method UpdateTaskHours(task: Id, assignee: Id, seconds: nat) returns (e: Option<Refused>)
      modifies this`timers
      ensures State() == After(old(State()), Correct(task, assignee, seconds), 0)
      ensures e.Some? <==> Do(old(State()), Correct(task, assignee, seconds), 0).Err?
    {
      var key := Key(task, assignee);
      if key !in timers { return Some(NotFound); }
      timers := timers[key := timers[key].(banked := seconds)];
      return None;
    }
  }
}
