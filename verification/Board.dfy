/**
 The task board: columns are task statuses, and `position` orders a column.

 A `Tasks` value is the task table.  Every operation of the class `Board` is proved
 to leave the table a function describes; the lemmas are about those functions.
 */
module Board {
  import opened Text

  const BATCH_SIZE: nat := 100
  const MAX_RETRIES: nat := 5

  type TaskId = nat

  datatype Status = Scheduled | Pending | Running | Review | Completed | Deleted | Archived
  datatype Category = Immediate | ScheduledOnce | Repeating
  datatype Task = Task(status: Status, position: int, executeAt: Option<int>, retryCount: nat)

  type Tasks = map<TaskId, Task>

  /** The tasks in a column, in any order. */
  function Column(t: Tasks, s: Status): (ids: set<TaskId>)
    ensures forall id :: id in ids <==> id in t && t[id].status == s
  {
    set id | id in t && t[id].status == s
  }

  /** No two tasks of the column share a position. */
  ghost predicate Distinct(t: Tasks, s: Status) {
    forall a, b :: a in t && b in t && a != b && t[a].status == s && t[b].status == s ==> t[a].position != t[b].position
  }

  // ---------- Bottom of a column ----------

  ghost predicate Highest(t: Tasks, ids: set<TaskId>, id: TaskId) {
    id in ids && ids <= t.Keys && forall k :: k in ids ==> t[k].position <= t[id].position
  }

  lemma {:induction false} HighestExists(t: Tasks, ids: set<TaskId>)
    requires ids != {} && ids <= t.Keys
    ensures exists id :: Highest(t, ids, id)
  {
    var k :| k in ids;
    var rest := ids - {k};
    if rest == {} {
      assert ids == {k};
      assert Highest(t, ids, k);
    } else {
      HighestExists(t, rest);
      var h :| Highest(t, rest, h);
      assert Highest(t, ids, if t[h].position < t[k].position then k else h);
    }
  }

  /** `max(position) + 1` over the given rows, or 1 when there are none. */
  ghost function Bottom(t: Tasks, ids: set<TaskId>): (p: int)
    requires ids <= t.Keys
    ensures forall k :: k in ids ==> t[k].position < p
    ensures ids == {} ==> p == 1
    ensures ids != {} ==> exists k :: k in ids && t[k].position == p - 1
  {
    if ids == {} then 1
    else
      HighestExists(t, ids);
      var h :| Highest(t, ids, h);
      t[h].position + 1
  }

  /** A position one above some row, with no row above that, is the bottom. */
  lemma BottomIs(t: Tasks, ids: set<TaskId>, h: TaskId)
    requires Highest(t, ids, h)
    ensures Bottom(t, ids) == t[h].position + 1
  {
    var k :| k in ids && t[k].position == Bottom(t, ids) - 1;
    assert t[k].position <= t[h].position < Bottom(t, ids);
  }

  // ---------- What each operation does to the table ----------

  /** Moves `id` to position `to` inside its column, shifting the tasks in between. */
  function Reordered(t: Tasks, id: TaskId, to: int): (r: Tasks)
    requires id in t
    ensures r.Keys == t.Keys
  {
    var from := t[id].position;
    map k | k in t ::
      if k == id then t[k].(position := to)
      else if t[k].status != t[id].status then t[k]
      else if to <= t[k].position < from then t[k].(position := t[k].position + 1)
      else if from < t[k].position <= to then t[k].(position := t[k].position - 1)
      else t[k]
  }

  /** Moves `id` to the bottom of another column. */
  ghost function MovedToBottom(t: Tasks, id: TaskId, s: Status): (r: Tasks)
    requires id in t
    ensures r.Keys == t.Keys
  {
    t[id := t[id].(status := s, position := Bottom(t, Column(t, s) - {id}))]
  }

  /** The board part of a PATCH: a column change wins over a requested position. */
  ghost function Placed(t: Tasks, id: TaskId, status: Option<Status>, position: Option<int>): (r: Tasks)
    requires id in t
  {
    if status.Some? && status.value != t[id].status then MovedToBottom(t, id, status.value)
    else if position.Some? && position.value != t[id].position then Reordered(t, id, position.value)
    else t
  }

  /** A whole PATCH of an editable task. */
  ghost function Patched(t: Tasks, id: TaskId, status: Option<Status>, position: Option<int>, executeAt: Option<Option<int>>): Tasks
    requires id in t
  {
    var r := Placed(t, id, status, position);
    if executeAt.Some? && id in r then r[id := r[id].(executeAt := executeAt.value)] else r
  }

  /** The column a new task is routed to. */
  function Route(category: Category, needsInfo: bool): Status {
    if needsInfo then Review else if category.Immediate? then Pending else Scheduled
  }

  /**
   A created task.  Its row is inserted with the server defaults (review, position 0) and routed
   before the column's maximum is read, so the maximum ranges over the new row as well.
   */
  ghost function Created(t: Tasks, id: TaskId, category: Category, needsInfo: bool, executeAt: Option<int>, now: int): Tasks {
    var row := Task(Route(category, needsInfo), 0, if category.Immediate? then Some(now) else executeAt, 0);
    var inserted := t[id := row];
    inserted[id := row.(position := Bottom(inserted, Column(inserted, row.status)))]
  }

  function Pow2(n: nat): nat {
    if n == 0 then 1 else 2 * Pow2(n - 1)
  }

  /** An orphaned running task goes back to scheduled with a backoff, or to review after the last retry. */
  function Requeued(task: Task, now: int): Task {
    if task.retryCount >= MAX_RETRIES then task.(status := Review)
    else task.(status := Scheduled, retryCount := task.retryCount + 1, executeAt := Some(now + 60 * Pow2(task.retryCount)))
  }

  /** The new status is flushed before the maximum is read, so the row counts with its old position. */
  ghost function Recovered(t: Tasks, id: TaskId, now: int): Tasks
    requires id in t
  {
    var row := Requeued(t[id], now);
    var flushed := t[id := row];
    flushed[id := row.(position := Bottom(flushed, Column(flushed, row.status)))]
  }

  predicate IsDue(task: Task, now: int) {
    task.status.Scheduled? && task.executeAt.Some? && task.executeAt.value <= now
  }

  function Due(t: Tasks, now: int): set<TaskId> {
    set id | id in t && IsDue(t[id], now)
  }

  /** What `ORDER BY execute_at LIMIT 100` may return: ties in any order. */
  ghost predicate IsDueBatch(t: Tasks, now: int, picked: seq<TaskId>) {
    && (forall i :: 0 <= i < |picked| ==> picked[i] in Due(t, now))
    && (forall i, j :: 0 <= i < j < |picked| ==> picked[i] != picked[j])
    && (forall i, j :: 0 <= i < j < |picked| ==> t[picked[i]].executeAt.value <= t[picked[j]].executeAt.value)
    && |picked| <= BATCH_SIZE
    && (forall id :: id in Due(t, now) && id !in picked ==>
          |picked| == BATCH_SIZE && t[picked[BATCH_SIZE - 1]].executeAt.value <= t[id].executeAt.value)
  }

  /** Each picked task in turn goes to the bottom of pending. */
  ghost function Promoted(t: Tasks, picked: seq<TaskId>): (r: Tasks)
    requires forall i :: 0 <= i < |picked| ==> picked[i] in t
    ensures r.Keys == t.Keys
  {
    if picked == [] then t
    else
      var last := picked[|picked| - 1];
      var before := Promoted(t, picked[..|picked| - 1]);
      before[last := before[last].(status := Pending, position := Bottom(before, Column(before, Pending)))]
  }

  // ---------- The operations ----------

  datatype PatchReply = Updated | NotFound | ConflictRunning

  class Board {
    var tasks: Tasks

    constructor ()
      ensures tasks == map[]
    {
      tasks := map[];
    }

    /** `SELECT max(position)` over the given rows, plus one; 1 when there are none. */
    method NextPosition(ids: set<TaskId>) returns (p: int)
      requires ids <= tasks.Keys
      ensures p == Bottom(tasks, ids)
    {
      var rest, best := ids, 0;
      ghost var holder := 0;
      while rest != {}
        invariant rest <= ids
        invariant rest == ids ==> best == 0
        invariant rest != ids ==> Highest(tasks, ids - rest, holder) && best == tasks[holder].position
        decreases rest
      {
        var k :| k in rest;
        if rest == ids || best < tasks[k].position {
          best, holder := tasks[k].position, k;
        }
        rest := rest - {k};
      }
      p := best + 1;
      if ids != {} {
        assert ids - rest == ids;
        BottomIs(tasks, ids, holder);
      }
    }

    /** PATCH /api/tasks/{id}: only the status, position and execute_at fields are modelled. */
    method UpdateTask(id: TaskId, status: Option<Status>, position: Option<int>, executeAt: Option<Option<int>>)
      returns (reply: PatchReply)
      modifies this
      ensures reply == if id !in old(tasks) then NotFound
                       else if old(tasks)[id].status.Running? then ConflictRunning else Updated
      ensures tasks == if reply.Updated? then Patched(old(tasks), id, status, position, executeAt) else old(tasks)
    {
      hide Bottom, Column;
      if id !in tasks {
        return NotFound;
      }
      if tasks[id].status.Running? {
        return ConflictRunning;
      }
      ghost var was := tasks;
      if status.Some? && status.value != tasks[id].status {
        var p := NextPosition(Column(tasks, status.value) - {id});
        tasks := tasks[id := tasks[id].(status := status.value, position := p)];
      } else if position.Some? && position.value != tasks[id].position {
        var to, from, column := position.value, tasks[id].position, tasks[id].status;
        if to < from {
          tasks := map k | k in tasks ::
            if tasks[k].status == column && to <= tasks[k].position < from && k != id
            then tasks[k].(position := tasks[k].position + 1) else tasks[k];
        } else {
          tasks := map k | k in tasks ::
            if tasks[k].status == column && from < tasks[k].position <= to && k != id
            then tasks[k].(position := tasks[k].position - 1) else tasks[k];
        }
        tasks := tasks[id := tasks[id].(position := to)];
        assert tasks == Reordered(was, id, to);
      }
      if executeAt.Some? {
        tasks := tasks[id := tasks[id].(executeAt := executeAt.value)];
      }
      return Updated;
    }

    /** `create_task_from_fields` for a fresh id. */
    method CreateTask(id: TaskId, category: Category, needsInfo: bool, executeAt: Option<int>, now: int)
      requires id !in tasks
      modifies this
      ensures tasks == Created(old(tasks), id, category, needsInfo, executeAt, now)
    {
      var runAt := if category.Immediate? then Some(now) else executeAt;
      tasks := tasks[id := Task(Review, 0, runAt, 0)];
      if needsInfo {
        tasks := tasks[id := tasks[id].(status := Review)];
      } else if category.Immediate? {
        tasks := tasks[id := tasks[id].(status := Pending)];
      } else {
        tasks := tasks[id := tasks[id].(status := Scheduled)];
      }
      assert tasks == old(tasks)[id := Task(Route(category, needsInfo), 0, runAt, 0)];
      var p := NextPosition(Column(tasks, tasks[id].status));
      tasks := tasks[id := tasks[id].(position := p)];
    }

    /** `_recover_orphaned_task`: anything but a running task is left alone. */
    method RecoverOrphan(id: TaskId, now: int)
      modifies this
      ensures tasks == if id in old(tasks) && old(tasks)[id].status.Running?
                       then Recovered(old(tasks), id, now) else old(tasks)
    {
      if id !in tasks || !tasks[id].status.Running? {
        return;
      }
      tasks := tasks[id := Requeued(tasks[id], now)];
      var p := NextPosition(Column(tasks, tasks[id].status));
      tasks := tasks[id := tasks[id].(position := p)];
    }

    /** The query of a promotion pass. */
    method SelectDue(now: int) returns (picked: seq<TaskId>)
      ensures IsDueBatch(tasks, now, picked)
    {
      picked := [];
      var rest := Due(tasks, now);
      while |picked| < BATCH_SIZE && rest != {}
        invariant |picked| <= BATCH_SIZE
        invariant rest <= Due(tasks, now)
        invariant forall i :: 0 <= i < |picked| ==> picked[i] in Due(tasks, now)
        invariant forall id :: id in Due(tasks, now) ==> id in rest || id in picked
        invariant forall id :: id in rest ==> id !in picked
        invariant forall i, j :: 0 <= i < j < |picked| ==> picked[i] != picked[j]
        invariant forall i, j :: 0 <= i < j < |picked| ==> tasks[picked[i]].executeAt.value <= tasks[picked[j]].executeAt.value
        invariant forall i, id :: 0 <= i < |picked| && id in rest ==> tasks[picked[i]].executeAt.value <= tasks[id].executeAt.value
        decreases rest
      {
        var first := Earliest(rest, now);
        picked, rest := picked + [first], rest - {first};
      }
    }

    method Earliest(ids: set<TaskId>, ghost now: int) returns (first: TaskId)
      requires ids != {} && ids <= Due(tasks, now)
      ensures first in ids
      ensures forall id :: id in ids ==> tasks[first].executeAt.value <= tasks[id].executeAt.value
    {
      first :| first in ids;
      var rest := ids - {first};
      while rest != {}
        invariant rest <= ids && first in ids
        invariant forall id :: id in ids && id !in rest ==> tasks[first].executeAt.value <= tasks[id].executeAt.value
        decreases rest
      {
        var id :| id in rest;
        if tasks[id].executeAt.value < tasks[first].executeAt.value {
          first := id;
        }
        rest := rest - {id};
      }
    }

    method PromoteDueTasks(now: int) returns (picked: seq<TaskId>)
      modifies this
      ensures IsDueBatch(old(tasks), now, picked)
      ensures tasks == Promoted(old(tasks), picked)
    {
      hide Bottom, Column, IsDueBatch, Promoted;
      picked := SelectDue(now);
      BatchIsThere(tasks, now, picked);
      NoneYetPromoted(tasks, picked);
      for i := 0 to |picked|
        invariant tasks == Promoted(old(tasks), picked[..i])
      {
        PromoteNext(old(tasks), picked, i);
        var p := NextPosition(Column(tasks, Pending));
        tasks := tasks[picked[i] := tasks[picked[i]].(status := Pending, position := p)];
      }
      assert picked[..|picked|] == picked;
    }
  }

  lemma BatchIsThere(t: Tasks, now: int, picked: seq<TaskId>)
    requires IsDueBatch(t, now, picked)
    ensures forall i :: 0 <= i < |picked| ==> picked[i] in t
  {
  }

  lemma NoneYetPromoted(t: Tasks, picked: seq<TaskId>)
    ensures Promoted(t, picked[..0]) == t
  {
  }

  lemma PromoteNext(t: Tasks, picked: seq<TaskId>, i: nat)
    requires i < |picked| && forall j :: 0 <= j < |picked| ==> picked[j] in t
    ensures var before := Promoted(t, picked[..i]);
            Promoted(t, picked[..i + 1]) ==
            before[picked[i] := before[picked[i]].(status := Pending, position := Bottom(before, Column(before, Pending)))]
  {
    hide Bottom, Column;
    assert picked[..i + 1][..i] == picked[..i];
  }

  // ---------- What each operation does, spelled out ----------

  /** Below every other task of its column, and at 1 if there is none. */
  ghost predicate AtBottom(t: Tasks, id: TaskId)
    requires id in t
  {
    forall k :: k in t && k != id && t[k].status == t[id].status ==> t[k].position < t[id].position
  }

  /**
   A new task that needs information goes to review; otherwise an immediate one is pending from now, and any other
   is scheduled for its time.  It goes to the bottom and no other task changes.
   */
  lemma CreateOutcome(t: Tasks, id: TaskId, category: Category, needsInfo: bool, executeAt: Option<int>, now: int)
    requires id !in t
    ensures var r := Created(t, id, category, needsInfo, executeAt, now);
            && r.Keys == t.Keys + {id} && (forall k :: k in t ==> r[k] == t[k])
            && (needsInfo ==> r[id].status == Review)
            && (!needsInfo && category == Immediate ==> r[id].status == Pending)
            && (!needsInfo && category != Immediate ==> r[id].status == Scheduled)
            && r[id].executeAt == (if category == Immediate then Some(now) else executeAt)
            && r[id].retryCount == 0 && AtBottom(r, id)
            && ((forall k :: k in t ==> t[k].status != r[id].status) ==> r[id].position == 1)
  {
    hide Bottom;
    var row := Task(Route(category, needsInfo), 0, if category.Immediate? then Some(now) else executeAt, 0);
    var inserted := t[id := row];
    var column := Column(inserted, row.status);
    assert id in column && inserted[id].position == 0;
    assert forall k :: k in t && t[k].status == row.status ==> k in column && inserted[k] == t[k];
    var k :| k in column && inserted[k].position == Bottom(inserted, column) - 1;
  }

  /**
   An orphan with retries left is scheduled again after a minute, doubled for each earlier retry; the sixth time it
   goes to review.  It goes to the bottom and no other task changes.
   */
  lemma RecoverOutcome(t: Tasks, id: TaskId, now: int)
    requires id in t
    ensures var r := Recovered(t, id, now);
            && r.Keys == t.Keys && (forall k :: k in t && k != id ==> r[k] == t[k])
            && (t[id].retryCount >= 5 ==>
                  r[id].status == Review && r[id].retryCount == t[id].retryCount && r[id].executeAt == t[id].executeAt)
            && (t[id].retryCount < 5 ==>
                  && r[id].status == Scheduled && r[id].retryCount == t[id].retryCount + 1
                  && r[id].executeAt == Some(now + 60 * [1, 2, 4, 8, 16][t[id].retryCount]))
            && AtBottom(r, id)
  {
    hide Bottom;
    SmallPowers();
    var flushed := t[id := Requeued(t[id], now)];
    var column := Column(flushed, flushed[id].status);
    assert forall k :: k in t && k != id && t[k].status == flushed[id].status ==> k in column && flushed[k] == t[k];
  }

  lemma SmallPowers()
    ensures Pow2(0) == 1 && Pow2(1) == 2 && Pow2(2) == 4 && Pow2(3) == 8 && Pow2(4) == 16
  {
  }

  /** A task is due exactly if it is scheduled for a time that has come. */
  lemma DueIff(t: Tasks, now: int, id: TaskId)
    ensures id in Due(t, now) <==>
            id in t && t[id].status == Scheduled && exists at :: t[id].executeAt == Some(at) && at <= now
  {
  }

  /** A batch holds at most 100 due tasks, and leaves one out only if it is full of tasks that were due no later. */
  lemma BatchIs(t: Tasks, now: int, picked: seq<TaskId>)
    requires IsDueBatch(t, now, picked)
    ensures |picked| <= 100 && forall i, j :: 0 <= i < j < |picked| ==> picked[i] != picked[j]
    ensures forall k :: k in picked ==> k in t && t[k].status == Scheduled && t[k].executeAt.Some? && t[k].executeAt.value <= now
    ensures forall id :: id in t && t[id].status == Scheduled && t[id].executeAt.Some? && t[id].executeAt.value <= now && id !in picked ==>
              |picked| == 100 && forall k :: k in picked ==> t[k].executeAt.value <= t[id].executeAt.value
  {
    forall id | id in Due(t, now) && id !in picked
      ensures forall k :: k in picked ==> t[k].executeAt.value <= t[id].executeAt.value {
      forall k | k in picked ensures t[k].executeAt.value <= t[id].executeAt.value {
        var i :| 0 <= i < |picked| && picked[i] == k;
        assert i < 99 ==> t[picked[i]].executeAt.value <= t[picked[99]].executeAt.value;
      }
    }
  }

  /** A column change goes to the bottom and wins over a position; `execute_at` is written whenever it is given. */
  lemma PatchOutcome(t: Tasks, id: TaskId, status: Option<Status>, position: Option<int>, at: Option<Option<int>>)
    requires id in t
    ensures var r := Patched(t, id, status, position, at);
            && r.Keys == t.Keys && r[id].retryCount == t[id].retryCount
            && r[id].status == (if status.Some? then status.value else t[id].status)
            && r[id].executeAt == (if at.Some? then at.value else t[id].executeAt)
            && (status.Some? && status.value != t[id].status ==> AtBottom(r, id) && forall k :: k in t && k != id ==> r[k] == t[k])
            && ((status.None? || status.value == t[id].status) ==>
                  && r[id].position == (if position.Some? then position.value else t[id].position)
                  && (position.None? || position.value == t[id].position ==> forall k :: k in t && k != id ==> r[k] == t[k])
                  && forall k :: k in t && k != id ==> r[k] == t[k].(position := r[k].position))
  {
    hide Bottom;
    if status.Some? && status.value != t[id].status {
      assert forall k :: k in t && k != id && t[k].status == status.value ==> k in Column(t, status.value) - {id};
    }
  }

  /** Promotion moves exactly the tasks picked, and of those only column and position. */
  lemma {:induction false} PromoteOutcome(t: Tasks, picked: seq<TaskId>)
    requires forall i :: 0 <= i < |picked| ==> picked[i] in t
    ensures var r := Promoted(t, picked);
            && r.Keys == t.Keys
            && (forall k :: k in t && k !in picked ==> r[k] == t[k])
            && (forall k :: k in picked ==> r[k] == t[k].(status := Pending, position := r[k].position))
  {
    hide Bottom;
    if picked != [] {
      var n := |picked| - 1;
      PromoteOutcome(t, picked[..n]);
      assert picked == picked[..n] + [picked[n]];
    }
  }

  // ---------- Reordering is a list move ----------

  /** A reorder to any position puts the task exactly there and keeps everything else in its order. */
  lemma ReorderKeepsOrder(t: Tasks, id: TaskId, to: int)
    requires id in t && Distinct(t, t[id].status)
    ensures var r := Reordered(t, id, to); var s := t[id].status;
            && r[id] == t[id].(position := to)
            && Distinct(r, s)
            && (forall k :: k in t && t[k].status != s ==> r[k] == t[k])
            && (forall k :: k in t && k != id ==> r[k] == t[k].(position := r[k].position))
            && (forall a, b :: a in Column(t, s) - {id} && b in Column(t, s) - {id} ==>
                  (t[a].position < t[b].position <==> r[a].position < r[b].position))
  {
  }

  /** The column is exactly the list `s`, numbered from 1. */
  ghost predicate Represents(t: Tasks, column: Status, s: seq<TaskId>) {
    && (forall id :: id in Column(t, column) <==> id in s)
    && (forall k :: 0 <= k < |s| ==> s[k] in t && t[s[k]].position == k + 1)
  }

  function MoveItem<T>(s: seq<T>, from: nat, to: nat): (r: seq<T>)
    requires from < |s| && to < |s|
    ensures |r| == |s|
  {
    var rest := s[..from] + s[from + 1..];
    rest[..to] + [s[from]] + rest[to..]
  }

  /** Which index of the old list ends up at index `k`. */
  function SourceIndex(from: nat, to: nat, k: nat): int {
    if k == to then from else if from <= k < to then k + 1 else if to < k <= from then k - 1 else k
  }

  lemma MoveItemAt<T>(s: seq<T>, from: nat, to: nat, k: nat)
    requires from < |s| && to < |s| && k < |s|
    ensures 0 <= SourceIndex(from, to, k) < |s| && MoveItem(s, from, to)[k] == s[SourceIndex(from, to, k)]
  {
  }

  /** A move neither loses nor invents an item. */
  lemma MoveItemKeepsItems<T>(s: seq<T>, from: nat, to: nat, x: T)
    requires from < |s| && to < |s|
    ensures x in MoveItem(s, from, to) <==> x in s
  {
    if x in s {
      var j: nat :| j < |s| && s[j] == x;
      MoveItemAt(s, from, to, SourceIndex(to, from, j));
    }
    if x in MoveItem(s, from, to) {
      var j: nat :| j < |s| && MoveItem(s, from, to)[j] == x;
      MoveItemAt(s, from, to, j);
    }
  }

  /** A list that re-indexes the column the way a move does is represented after the reorder. */
  lemma ReorderNumbering(t: Tasks, id: TaskId, from: nat, to: nat, s: seq<TaskId>, m: seq<TaskId>)
    requires id in t && Represents(t, t[id].status, s)
    requires from < |s| && to < |s| && |m| == |s|
    requires s[from] == id && t[id].position == from + 1
    requires forall k: nat :: k < |m| ==>
               0 <= SourceIndex(from, to, k) < |s| && m[k] == s[SourceIndex(from, to, k)]
    requires forall x :: x in m <==> x in s
    ensures Represents(Reordered(t, id, to + 1), t[id].status, m)
  {
    var r := Reordered(t, id, to + 1);
    assert Column(r, t[id].status) == Column(t, t[id].status);
    forall k: nat | k < |m| ensures m[k] in t && r[m[k]].position == k + 1 {
      var i := SourceIndex(from, to, k);
      assert s[i] in Column(t, t[id].status) && t[s[i]].position == i + 1;
    }
  }

  /** On a contiguous column, a PATCH to a position of the column is remove-then-insert. */
  lemma ReorderIsListMove(t: Tasks, id: TaskId, to: int, s: seq<TaskId>)
    requires id in t && Represents(t, t[id].status, s)
    requires 1 <= to <= |s|
    ensures 1 <= t[id].position <= |s|
    ensures Represents(Reordered(t, id, to), t[id].status, MoveItem(s, t[id].position - 1, to - 1))
  {
    assert id in Column(t, t[id].status);
    var j :| 0 <= j < |s| && s[j] == id;
    assert t[s[j]].position == j + 1;
    var m := MoveItem(s, j, to - 1);
    forall k: nat | k < |m| ensures 0 <= SourceIndex(j, to - 1, k) < |s| && m[k] == s[SourceIndex(j, to - 1, k)] {
      MoveItemAt(s, j, to - 1, k);
    }
    forall x ensures x in m <==> x in s {
      MoveItemKeepsItems(s, j, to - 1, x);
    }
    ReorderNumbering(t, id, j, to - 1, s, m);
  }

  ghost predicate Contiguous(t: Tasks, column: Status) {
    exists s :: Represents(t, column, s)
  }

  /** A contiguous column stays contiguous exactly when the requested position is one of its own. */
  lemma ReorderContiguousIff(t: Tasks, id: TaskId, to: int, s: seq<TaskId>)
    requires id in t && Represents(t, t[id].status, s)
    ensures Contiguous(Reordered(t, id, to), t[id].status) <==> 1 <= to <= |s|
  {
    var column, r := t[id].status, Reordered(t, id, to);
    if 1 <= to <= |s| {
      ReorderIsListMove(t, id, to, s);
    } else if Contiguous(r, column) {
      var m :| Represents(r, column, m);
      assert id in Column(t, column) && id in Column(r, column);
      assert forall k :: k in Column(r, column) <==> k in Column(t, column);
      SameLength(s, t, m, r, column);
    }
  }

  /** Two numberings of one set of tasks have the same length. */
  lemma SameLength(s: seq<TaskId>, t: Tasks, m: seq<TaskId>, r: Tasks, column: Status)
    requires Represents(t, column, s) && Represents(r, column, m) && Column(t, column) == Column(r, column)
    ensures |s| == |m|
  {
    NumberedSize(s, t, column);
    NumberedSize(m, r, column);
  }

  lemma NumberedSize(s: seq<TaskId>, t: Tasks, column: Status)
    requires Represents(t, column, s)
    ensures |Column(t, column)| == |s|
  {
    forall i, j | 0 <= i < j < |s| ensures s[i] != s[j] {
      assert t[s[i]].position != t[s[j]].position;
    }
    DistinctElements(s);
    assert Column(t, column) == Elements(s);
  }

  function Elements(s: seq<TaskId>): set<TaskId> {
    set id | id in s
  }

  lemma {:induction false} DistinctElements(s: seq<TaskId>)
    requires forall i, j :: 0 <= i < j < |s| ==> s[i] != s[j]
    ensures |Elements(s)| == |s|
  {
    if s != [] {
      var n := |s| - 1;
      DistinctElements(s[..n]);
      assert s == s[..n] + [s[n]] && s[n] !in Elements(s[..n]);
      assert Elements(s) == Elements(s[..n]) + {s[n]};
    }
  }

  // ---------- Promotion ----------

  /** Appending one task to pending: it gets the bottom, and the bottom moves down by one. */
  lemma PromoteOne(t: Tasks, id: TaskId)
    requires id in t && t[id].status != Pending
    ensures var p := Bottom(t, Column(t, Pending)); var r := t[id := t[id].(status := Pending, position := p)];
            Bottom(r, Column(r, Pending)) == p + 1
  {
    var p := Bottom(t, Column(t, Pending));
    var r := t[id := t[id].(status := Pending, position := p)];
    assert forall k :: k in Column(r, Pending) ==> k == id || k in Column(t, Pending);
    assert Highest(r, Column(r, Pending), id);
    BottomIs(r, Column(r, Pending), id);
  }

  /** A pass appends its batch to pending in order, below everything already there, and touches nothing else. */
  lemma {:induction false} PromotionAppendsInOrder(t: Tasks, picked: seq<TaskId>)
    requires forall i :: 0 <= i < |picked| ==> picked[i] in t && t[picked[i]].status != Pending
    requires forall i, j :: 0 <= i < j < |picked| ==> picked[i] != picked[j]
    ensures forall i :: 0 <= i < |picked| ==>
              Promoted(t, picked)[picked[i]] == t[picked[i]].(status := Pending, position := Bottom(t, Column(t, Pending)) + i)
    ensures forall id :: id in t && id !in picked ==> Promoted(t, picked)[id] == t[id]
    ensures picked != [] ==>
              Bottom(Promoted(t, picked), Column(Promoted(t, picked), Pending)) == Bottom(t, Column(t, Pending)) + |picked|
  {
    if picked != [] {
      var n := |picked| - 1;
      var init, last := picked[..n], picked[n];
      PromotionAppendsInOrder(t, init);
      assert last !in init;
      assert picked == init + [last];
      PromoteOne(Promoted(t, init), last);
    }
  }

  /** So a pass leaves the batch sorted by execute_at, strictly below every task that was already pending. */
  lemma PromotedBatchIsSorted(t: Tasks, now: int, picked: seq<TaskId>)
    requires IsDueBatch(t, now, picked)
    ensures forall i, j :: 0 <= i < j < |picked| ==>
              Promoted(t, picked)[picked[i]].position < Promoted(t, picked)[picked[j]].position
              && t[picked[i]].executeAt.value <= t[picked[j]].executeAt.value
    ensures forall k :: k in t && t[k].status == Pending ==> Promoted(t, picked)[k] == t[k]
    ensures forall k, i :: k in t && t[k].status == Pending && 0 <= i < |picked| ==>
              t[k].position < Promoted(t, picked)[picked[i]].position
  {
    PromotionAppendsInOrder(t, picked);
  }

  // ---------- Distinct positions over every run ----------

  datatype Operation =
    | Create(id: TaskId, category: Category, needsInfo: bool, executeAt: Option<int>, now: int)
    | Patch(id: TaskId, status: Option<Status>, position: Option<int>, at: Option<Option<int>>)
    | Promote(now: int, picked: seq<TaskId>)
    | Claim(id: TaskId)
    | Recover(id: TaskId, now: int)

  /** A creation uses a fresh id, a promotion what its query may return. */
  ghost predicate Possible(t: Tasks, op: Operation) {
    match op
    case Create(id, _, _, _, _) => id !in t
    case Promote(now, picked) => IsDueBatch(t, now, picked)
    case _ => true
  }

  /** The table after one operation; the worker's claim only changes the status. */
  ghost function After(t: Tasks, op: Operation): Tasks
    requires Possible(t, op)
  {
    match op
    case Create(id, category, needsInfo, executeAt, now) => Created(t, id, category, needsInfo, executeAt, now)
    case Patch(id, status, position, at) =>
      if id in t && !t[id].status.Running? then Patched(t, id, status, position, at) else t
    case Promote(_, picked) => Promoted(t, picked)
    case Claim(id) => if id in t && t[id].status.Pending? then t[id := t[id].(status := Running)] else t
    case Recover(id, now) => if id in t && t[id].status.Running? then Recovered(t, id, now) else t
  }

  /** Only a pending task is claimed, only a running one recovered, and only one that is not running patched. */
  lemma RefusedOperations(t: Tasks, id: TaskId, status: Option<Status>, position: Option<int>, at: Option<Option<int>>, now: int)
    ensures id !in t || t[id].status == Running ==> After(t, Patch(id, status, position, at)) == t
    ensures id in t && t[id].status != Running ==>
              After(t, Patch(id, status, position, at)) == Patched(t, id, status, position, at)
    ensures id !in t || t[id].status != Running ==> After(t, Recover(id, now)) == t
    ensures id in t && t[id].status == Running ==> After(t, Recover(id, now)) == Recovered(t, id, now)
    ensures After(t, Claim(id)) ==
            if id in t && t[id].status == Pending then t[id := t[id].(status := Running)] else t
  {
  }

  /** Writing one row at a position nobody else in its new column holds keeps every column distinct. */
  lemma WriteKeepsDistinct(t: Tasks, id: TaskId, row: Task, s: Status)
    requires Distinct(t, s)
    requires row.status == s ==> forall k :: k in t && t[k].status == s && k != id ==> t[k].position != row.position
    ensures Distinct(t[id := row], s)
  {
  }

  lemma {:induction false} PromotionKeepsDistinct(t: Tasks, picked: seq<TaskId>, s: Status)
    requires Distinct(t, s)
    requires forall i :: 0 <= i < |picked| ==> picked[i] in t
    ensures Distinct(Promoted(t, picked), s)
  {
    if picked != [] {
      var n := |picked| - 1;
      PromotionKeepsDistinct(t, picked[..n], s);
      var before := Promoted(t, picked[..n]);
      var row := before[picked[n]].(status := Pending, position := Bottom(before, Column(before, Pending)));
      WriteKeepsDistinct(before, picked[n], row, s);
    }
  }

  lemma ReorderKeepsDistinct(t: Tasks, id: TaskId, to: int, s: Status)
    requires Distinct(t, s) && id in t
    ensures Distinct(Reordered(t, id, to), s)
  {
  }

  lemma PlacedKeepsDistinct(t: Tasks, id: TaskId, status: Option<Status>, position: Option<int>, s: Status)
    requires Distinct(t, s) && id in t
    ensures Distinct(Placed(t, id, status, position), s)
  {
    if status.Some? && status.value != t[id].status {
      WriteKeepsDistinct(t, id, Placed(t, id, status, position)[id], s);
    } else if position.Some? && position.value != t[id].position {
      ReorderKeepsDistinct(t, id, position.value, s);
    }
  }

  lemma PatchKeepsDistinct(t: Tasks, id: TaskId, status: Option<Status>, position: Option<int>, at: Option<Option<int>>, s: Status)
    requires Distinct(t, s) && id in t
    ensures Distinct(Patched(t, id, status, position, at), s)
  {
    PlacedKeepsDistinct(t, id, status, position, s);
    var r := Placed(t, id, status, position);
    if at.Some? {
      WriteKeepsDistinct(r, id, r[id].(executeAt := at.value), s);
    }
  }

  /** Every operation keeps the positions of every column distinct, except that a claim may clash in the running one. */
  lemma OperationKeepsDistinct(t: Tasks, op: Operation, s: Status)
    requires Distinct(t, s) && s != Running && Possible(t, op)
    ensures Distinct(After(t, op), s)
  {
    match op
    case Create(id, category, needsInfo, executeAt, now) =>
      var row := After(t, op)[id];
      var inserted := t[id := Task(row.status, 0, row.executeAt, 0)];
      assert forall k :: k in Column(t, row.status) ==> k in Column(inserted, row.status) && inserted[k] == t[k];
      WriteKeepsDistinct(t, id, row, s);
      assert After(t, op) == t[id := row];
    case Patch(id, status, position, at) =>
      if id in t {
        PatchKeepsDistinct(t, id, status, position, at, s);
      }
    case Promote(_, picked) => PromotionKeepsDistinct(t, picked, s);
    case Claim(id) =>
    case Recover(id, now) =>
      if id in t && t[id].status.Running? {
        var row := After(t, op)[id];
        var flushed := t[id := Requeued(t[id], now)];
        assert forall k :: k in Column(t, row.status) ==> k in Column(flushed, row.status) && flushed[k] == t[k];
        WriteKeepsDistinct(t, id, row, s);
        assert After(t, op) == t[id := row];
      }
  }

  ghost predicate PossibleRun(t: Tasks, ops: seq<Operation>)
    decreases |ops|
  {
    ops == [] || (Possible(t, ops[0]) && PossibleRun(After(t, ops[0]), ops[1..]))
  }

  ghost function AfterRun(t: Tasks, ops: seq<Operation>): Tasks
    requires PossibleRun(t, ops)
    decreases |ops|
  {
    if ops == [] then t else AfterRun(After(t, ops[0]), ops[1..])
  }

  /** Whatever is created, moved, reordered, promoted, claimed or recovered, no queue ever holds two tasks at one position. */
  lemma {:induction false} RunKeepsDistinct(t: Tasks, ops: seq<Operation>, s: Status)
    requires Distinct(t, s) && s != Running && PossibleRun(t, ops)
    ensures Distinct(AfterRun(t, ops), s)
    decreases |ops|
  {
    if ops != [] {
      OperationKeepsDistinct(t, ops[0], s);
      RunKeepsDistinct(After(t, ops[0]), ops[1..], s);
    }
  }
}
