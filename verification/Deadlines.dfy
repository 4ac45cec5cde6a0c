/**
 Deadline generation (backend/app/routers/deadlines.py) over an unknown planner:
 whatever dates it plans, and in whatever order clients are processed, every
 obligation gets exactly one row.
 */
module Deadlines {
  import opened Common

  type Id = nat

  type Day = int

  datatype Assignment = Assignment(id: Id, clientId: Id)

  datatype Planned = Planned(periodEnd: Day, title: string, dueDate: Day)

  // `assignment` is None for a deadline that was not projected from a service.
  datatype Deadline = Deadline(assignment: Option<Id>, clientId: Id, periodEnd: Day, title: string, dueDate: Day)

  type Planner = Assignment -> seq<Planned>

  datatype Key = Key(assignment: Id, periodEnd: Day)

  function Keys(rows: seq<Deadline>): set<Key> {
    set r | r in rows && r.assignment.Some? :: Key(r.assignment.value, r.periodEnd)
  }

  function PlannedKeys(a: Assignment, items: seq<Planned>): set<Key> {
    set item | item in items :: Key(a.id, item.periodEnd)
  }

  function AllPlannedKeys(assignments: seq<Assignment>, plan: Planner): set<Key> {
    if assignments == [] then {}
    else AllPlannedKeys(assignments[..|assignments| - 1], plan)
         + PlannedKeys(assignments[|assignments| - 1], plan(assignments[|assignments| - 1]))
  }

  function PlannedCount(assignments: seq<Assignment>, plan: Planner): nat {
    if assignments == [] then 0
    else PlannedCount(assignments[..|assignments| - 1], plan) + |plan(assignments[|assignments| - 1])|
  }

  function RowOf(a: Assignment, item: Planned): Deadline {
    Deadline(Some(a.id), a.clientId, item.periodEnd, item.title, item.dueDate)
  }

  function AddItems(rows: seq<Deadline>, a: Assignment, items: seq<Planned>): seq<Deadline> {
    if items == [] then rows
    else
      var before, item := AddItems(rows, a, items[..|items| - 1]), items[|items| - 1];
      if Key(a.id, item.periodEnd) in Keys(before) then before else before + [RowOf(a, item)]
  }

  function Generate(rows: seq<Deadline>, assignments: seq<Assignment>, plan: Planner): seq<Deadline> {
    if assignments == [] then rows
    else
      var last := assignments[|assignments| - 1];
      AddItems(Generate(rows, assignments[..|assignments| - 1], plan), last, plan(last))
  }

  // No two rows stand for the same period of the same assignment.
  predicate DistinctKeys(rows: seq<Deadline>) {
    forall i, j :: 0 <= i < j < |rows| && rows[i].assignment.Some? && rows[i].assignment == rows[j].assignment ==>
                     rows[i].periodEnd != rows[j].periodEnd
  }

  // --- what one pass does ---------------------------------------------------

  lemma KeysAppend(rows: seq<Deadline>, a: Assignment, item: Planned)
    ensures Keys(rows + [RowOf(a, item)]) == Keys(rows) + {Key(a.id, item.periodEnd)}
  {
    var more := rows + [RowOf(a, item)];
    assert more[|rows|] == RowOf(a, item);
    forall k | k in Keys(rows)
      ensures k in Keys(more)
    {
      var r :| r in rows && r.assignment.Some? && Key(r.assignment.value, r.periodEnd) == k;
      assert r in more;
    }
    assert RowOf(a, item) in more;
  }

  lemma PlannedKeysAppend(a: Assignment, items: seq<Planned>, item: Planned)
    ensures PlannedKeys(a, items + [item]) == PlannedKeys(a, items) + {Key(a.id, item.periodEnd)}
  {
    var more := items + [item];
    assert more[|items|] == item;
    forall k | k in PlannedKeys(a, items)
      ensures k in PlannedKeys(a, more)
    {
      var it :| it in items && Key(a.id, it.periodEnd) == k;
      assert it in more;
    }
  }

  lemma {:induction false} AddItemsKeys(rows: seq<Deadline>, a: Assignment, items: seq<Planned>)
    ensures Keys(AddItems(rows, a, items)) == Keys(rows) + PlannedKeys(a, items)
  {
    if items != [] {
      var front, item := items[..|items| - 1], items[|items| - 1];
      AddItemsKeys(rows, a, front);
      assert items == front + [item];
      PlannedKeysAppend(a, front, item);
      KeysAppend(AddItems(rows, a, front), a, item);
    }
  }

  lemma {:induction false} AddItemsOnlyAdds(rows: seq<Deadline>, a: Assignment, items: seq<Planned>)
    ensures var after := AddItems(rows, a, items);
            rows <= after && |after| - |rows| == |Keys(after)| - |Keys(rows)|
  {
    if items != [] {
      var front, item := items[..|items| - 1], items[|items| - 1];
      AddItemsOnlyAdds(rows, a, front);
      KeysAppend(AddItems(rows, a, front), a, item);
    }
  }

  lemma {:induction false} AddItemsStayDistinct(rows: seq<Deadline>, a: Assignment, items: seq<Planned>)
    requires DistinctKeys(rows)
    ensures DistinctKeys(AddItems(rows, a, items))
  {
    if items != [] {
      var front, item := items[..|items| - 1], items[|items| - 1];
      AddItemsStayDistinct(rows, a, front);
      var before := AddItems(rows, a, front);
      if Key(a.id, item.periodEnd) !in Keys(before) {
        forall i | 0 <= i < |before| && before[i].assignment == Some(a.id)
          ensures before[i].periodEnd != item.periodEnd
        {
          assert before[i] in before;
        }
      }
    }
  }

  // Every added row is one the planner asked for, with its title and due date.
  lemma {:induction false} AddItemsAreAsPlanned(rows: seq<Deadline>, a: Assignment, items: seq<Planned>, row: Deadline)
    requires row in AddItems(rows, a, items)
    ensures row in rows || exists item :: item in items && row == RowOf(a, item)
  {
    if items != [] {
      var front, item := items[..|items| - 1], items[|items| - 1];
      assert items == front + [item];
      if row in AddItems(rows, a, front) {
        AddItemsAreAsPlanned(rows, a, front, row);
      } else {
        assert item in items;
      }
    }
  }

  // One run adds exactly the planned keys that were missing, keeps keys distinct and
  // touches no row that was there.
  lemma {:induction false} GenerateIs(rows: seq<Deadline>, assignments: seq<Assignment>, plan: Planner)
    ensures var after := Generate(rows, assignments, plan);
            && rows <= after
            && Keys(after) == Keys(rows) + AllPlannedKeys(assignments, plan)
            && |after| - |rows| == |Keys(after)| - |Keys(rows)|
            && (DistinctKeys(rows) ==> DistinctKeys(after))
  {
    if assignments != [] {
      var front, last := assignments[..|assignments| - 1], assignments[|assignments| - 1];
      GenerateIs(rows, front, plan);
      var before := Generate(rows, front, plan);
      AddItemsKeys(before, last, plan(last));
      AddItemsOnlyAdds(before, last, plan(last));
      if DistinctKeys(rows) {
        AddItemsStayDistinct(before, last, plan(last));
      }
    }
  }

  lemma {:induction false} RowsAreAsPlanned(rows: seq<Deadline>, assignments: seq<Assignment>, plan: Planner, row: Deadline)
    requires row in Generate(rows, assignments, plan)
    ensures row in rows || exists a, item :: a in assignments && item in plan(a) && row == RowOf(a, item)
  {
    if assignments != [] {
      var front, last := assignments[..|assignments| - 1], assignments[|assignments| - 1];
      assert assignments == front + [last];
      AddItemsAreAsPlanned(Generate(rows, front, plan), last, plan(last), row);
      if row in Generate(rows, front, plan) {
        RowsAreAsPlanned(rows, front, plan, row);
      }
    }
  }

  // Field by field: the assignment and its client, the item's period, title and due date.
  lemma AddedRowsAre(rows: seq<Deadline>, assignments: seq<Assignment>, plan: Planner, row: Deadline)
    requires row in Generate(rows, assignments, plan) && row !in rows
    ensures exists a, item ::
              a in assignments && item in plan(a) &&
              row.assignment == Some(a.id) && row.clientId == a.clientId &&
              row.periodEnd == item.periodEnd && row.title == item.title && row.dueDate == item.dueDate
  {
    RowsAreAsPlanned(rows, assignments, plan, row);
    var a, item :| a in assignments && item in plan(a) && row == RowOf(a, item);
    assert row.assignment == Some(a.id) && row.clientId == a.clientId;
  }

  lemma {:induction false} PlannedKeyHasAnAssignment(assignments: seq<Assignment>, plan: Planner, k: Key)
    ensures k in AllPlannedKeys(assignments, plan) <==> exists a <- assignments :: k in PlannedKeys(a, plan(a))
  {
    if assignments != [] {
      var front, last := assignments[..|assignments| - 1], assignments[|assignments| - 1];
      assert assignments == front + [last];
      PlannedKeyHasAnAssignment(front, plan, k);
    }
  }

  // Every planned item has its row afterwards.
  lemma EveryItemIsOnFile(rows: seq<Deadline>, assignments: seq<Assignment>, plan: Planner, a: Assignment, item: Planned)
    requires a in assignments && item in plan(a)
    ensures exists row :: row in Generate(rows, assignments, plan) && row.assignment == Some(a.id) && row.periodEnd == item.periodEnd
  {
    GenerateIs(rows, assignments, plan);
    PlannedKeyHasAnAssignment(assignments, plan, Key(a.id, item.periodEnd));
    assert Key(a.id, item.periodEnd) in PlannedKeys(a, plan(a));
    var row :| row in Generate(rows, assignments, plan) && row.assignment.Some? &&
               Key(row.assignment.value, row.periodEnd) == Key(a.id, item.periodEnd);
  }

  // --- running again --------------------------------------------------------

  lemma {:induction false} AllKnownAddsNothing(rows: seq<Deadline>, a: Assignment, items: seq<Planned>)
    requires PlannedKeys(a, items) <= Keys(rows)
    ensures AddItems(rows, a, items) == rows
  {
    if items != [] {
      var front, item := items[..|items| - 1], items[|items| - 1];
      assert item in items && Key(a.id, item.periodEnd) in PlannedKeys(a, items);
      assert forall it <- front :: it in items;
      AllKnownAddsNothing(rows, a, front);
    }
  }

  lemma {:induction false} AllPlannedAddNothing(rows: seq<Deadline>, assignments: seq<Assignment>, plan: Planner)
    requires AllPlannedKeys(assignments, plan) <= Keys(rows)
    ensures Generate(rows, assignments, plan) == rows
  {
    if assignments != [] {
      AllPlannedAddNothing(rows, assignments[..|assignments| - 1], plan);
      AllKnownAddsNothing(rows, assignments[|assignments| - 1], plan(assignments[|assignments| - 1]));
    }
  }

  lemma SecondRunCreatesNothing(rows: seq<Deadline>, assignments: seq<Assignment>, plan: Planner)
    ensures var once := Generate(rows, assignments, plan); Generate(once, assignments, plan) == once
  {
    GenerateIs(rows, assignments, plan);
    AllPlannedAddNothing(Generate(rows, assignments, plan), assignments, plan);
  }

  // --- client by client -------------------------------------------------------

  function OfClient(assignments: seq<Assignment>, clientId: Id): seq<Assignment> {
    if assignments == [] then []
    else OfClient(assignments[..|assignments| - 1], clientId)
         + if assignments[|assignments| - 1].clientId == clientId then [assignments[|assignments| - 1]] else []
  }

  function ClientByClient(rows: seq<Deadline>, assignments: seq<Assignment>, plan: Planner, clients: seq<Id>): seq<Deadline> {
    if clients == [] then rows
    else Generate(ClientByClient(rows, assignments, plan, clients[..|clients| - 1]),
                  OfClient(assignments, clients[|clients| - 1]), plan)
  }

  lemma {:induction false} OfClientIs(assignments: seq<Assignment>, clientId: Id)
    ensures forall a :: a in OfClient(assignments, clientId) <==> a in assignments && a.clientId == clientId
  {
    if assignments != [] {
      OfClientIs(assignments[..|assignments| - 1], clientId);
      assert assignments == assignments[..|assignments| - 1] + [assignments[|assignments| - 1]];
    }
  }

  lemma {:induction false} ClientByClientKeys(rows: seq<Deadline>, assignments: seq<Assignment>, plan: Planner, clients: seq<Id>, k: Key)
    ensures k in Keys(ClientByClient(rows, assignments, plan, clients)) <==>
              k in Keys(rows) || exists a <- assignments :: a.clientId in clients && k in PlannedKeys(a, plan(a))
    ensures DistinctKeys(rows) ==> DistinctKeys(ClientByClient(rows, assignments, plan, clients))
    ensures var after := ClientByClient(rows, assignments, plan, clients); |after| - |rows| == |Keys(after)| - |Keys(rows)|
  {
    if clients != [] {
      var front, c := clients[..|clients| - 1], clients[|clients| - 1];
      var own := OfClient(assignments, c);
      assert clients == front + [c];
      ClientByClientKeys(rows, assignments, plan, front, k);
      GenerateIs(ClientByClient(rows, assignments, plan, front), own, plan);
      PlannedKeyHasAnAssignment(own, plan, k);
      OfClientIs(assignments, c);
    }
  }

  // Any order of the clients, each done on its own, reaches the keys of one whole-firm
  // run, and as many rows.
  lemma OrderOfClientsDoesNotMatter(rows: seq<Deadline>, assignments: seq<Assignment>, plan: Planner, clients: seq<Id>)
    requires forall a <- assignments :: a.clientId in clients
    ensures Keys(ClientByClient(rows, assignments, plan, clients)) == Keys(Generate(rows, assignments, plan))
    ensures |ClientByClient(rows, assignments, plan, clients)| == |Generate(rows, assignments, plan)|
    ensures DistinctKeys(rows) ==> DistinctKeys(ClientByClient(rows, assignments, plan, clients))
  {
    GenerateIs(rows, assignments, plan);
    forall k
      ensures k in Keys(ClientByClient(rows, assignments, plan, clients)) <==> k in Keys(Generate(rows, assignments, plan))
    {
      ClientByClientKeys(rows, assignments, plan, clients, k);
      PlannedKeyHasAnAssignment(assignments, plan, k);
    }
    ClientByClientKeys(rows, assignments, plan, clients, Key(0, 0));
  }

  // --- the handler ------------------------------------------------------------

  // What the `existing` set of the handler must go on meaning: the keys on file among
  // the assignments of this run.
  ghost predicate Tracks(existing: set<Key>, ids: set<Id>, rows: seq<Deadline>) {
    forall k: Key :: k.assignment in ids ==> (k in existing <==> k in Keys(rows))
  }

  method AddPlanned(rows: seq<Deadline>, a: Assignment, items: seq<Planned>, known: set<Key>, ghost ids: set<Id>)
    returns (after: seq<Deadline>, existing: set<Key>, created: nat, skipped: nat)
    requires a.id in ids && Tracks(known, ids, rows)
    ensures after == AddItems(rows, a, items) && Tracks(existing, ids, after)
    ensures |after| == |rows| + created && created + skipped == |items|
  {
    after, existing, created, skipped := rows, known, 0, 0;
    for j := 0 to |items|
      invariant after == AddItems(rows, a, items[..j]) && Tracks(existing, ids, after)
      invariant |after| == |rows| + created && created + skipped == j
    {
      assert items[..j + 1][..j] == items[..j];
      var key := Key(a.id, items[j].periodEnd);
      if key in existing {
        skipped := skipped + 1;
      } else {
        KeysAppend(after, a, items[j]);
        after := after + [RowOf(a, items[j])];
        existing := existing + {key};
        created := created + 1;
      }
    }
    assert items[..|items|] == items;
  }

  // What is loaded before the loop: the keys of the assignments that will be planned.
  function OnFile(rows: seq<Deadline>, ids: set<Id>): set<Key> {
    set r | r in rows && r.assignment.Some? && r.assignment.value in ids :: Key(r.assignment.value, r.periodEnd)
  }

  method GenerateDeadlines(rows: seq<Deadline>, assignments: seq<Assignment>, plan: Planner)
    returns (after: seq<Deadline>, created: nat, skipped: nat, clients: set<Id>)
    ensures after == Generate(rows, assignments, plan)
    ensures created == |Keys(after)| - |Keys(rows)| && created + skipped == PlannedCount(assignments, plan)
    ensures Keys(after) == Keys(rows) + AllPlannedKeys(assignments, plan)
    ensures DistinctKeys(rows) ==> DistinctKeys(after)
    ensures clients == set a | a in assignments :: a.clientId
  {
    after, created, skipped, clients := rows, 0, 0, {};
    var ids := set a | a in assignments :: a.id;
    var existing := OnFile(rows, ids);
    for i := 0 to |assignments|
      invariant after == Generate(rows, assignments[..i], plan) && Tracks(existing, ids, after)
      invariant |after| == |rows| + created && created + skipped == PlannedCount(assignments[..i], plan)
      invariant clients == set a | a in assignments[..i] :: a.clientId
    {
      assert assignments[..i + 1][..i] == assignments[..i];
      var a := assignments[i];
      clients := clients + {a.clientId};
      var more, skips;
      after, existing, more, skips := AddPlanned(after, a, plan(a), existing, ids);
      created, skipped := created + more, skipped + skips;
    }
    assert assignments[..|assignments|] == assignments;
    GenerateIs(rows, assignments, plan);
  }
}
