/** The expressions the task ledger of app.js is built from: `tasks.find`, the `tasks.map`
    of toggleTask and creditActiveTask, the `tasks.filter` of deleteTask and
    clearCompletedTasks, and the record handleTaskSubmit pushes. */
module Ledger {
  import opened Records

  /** The position `tasks.find(t => t.id === id)` stops at: the first task with that id. */
  function FindIndex(tasks: seq<Task>, id: Id): (r: Option<nat>)
    ensures r.Some? ==> r.value < |tasks| && tasks[r.value].id == id
    ensures r.Some? ==> forall j :: 0 <= j < r.value ==> tasks[j].id != id
    ensures r.None? ==> forall j :: 0 <= j < |tasks| ==> tasks[j].id != id
  {
    if tasks == [] then None
    else if tasks[0].id == id then Some(0)
    else match FindIndex(tasks[1..], id)
      case None => None
      case Some(i) => Some(i + 1)
  }

  /** `tasks.find(t => t.id === a)` finds a task; a `null` id (`None`) matches no task. */
  predicate Refers(tasks: seq<Task>, a: Option<Id>) {
    a.Some? && FindIndex(tasks, a.value).Some?
  }

  /** `tasks.find(t => t.id === id)?.done` */
  predicate FoundDone(tasks: seq<Task>, id: Id) {
    match FindIndex(tasks, id)
    case None => false
    case Some(i) => tasks[i].done
  }

  /** Truthiness of `state.activeTaskId`: set, and not the empty string. */
  predicate HasActive(a: Option<Id>) {
    a.Some? && a.value != ""
  }

  ghost predicate UniqueIds(tasks: seq<Task>) {
    forall i, j :: 0 <= i < j < |tasks| ==> tasks[i].id != tasks[j].id
  }

  lemma RefersIff(tasks: seq<Task>, a: Option<Id>)
    ensures Refers(tasks, a) <==> exists t :: t in tasks && Some(t.id) == a
  {
    if a.Some? && FindIndex(tasks, a.value).Some? {
      assert tasks[FindIndex(tasks, a.value).value] in tasks;
    }
  }

  /* ---- handleTaskSubmit ---- */

  /** `Number(form.estimate.value) || 1`: 0 and NaN (`None`) become 1; any other number,
      negative ones included, is kept. */
  function Estimate(input: Option<int>): (e: int)
    ensures e != 0
    ensures input.None? || input.value == 0 ==> e == 1
    ensures input.Some? && input.value != 0 ==> e == input.value
  {
    if input.None? || input.value == 0 then 1 else input.value
  }

  function NewTask(id: Id, title: string, estimate: Option<int>): Task {
    Task(id, title, Estimate(estimate), 0, false)
  }

  /* ---- toggleTask ---- */

  /** `tasks.map(task => task.id === id ? { ...task, done: !task.done } : task)` */
  function Toggled(tasks: seq<Task>, id: Id): seq<Task> {
    seq(|tasks|, i requires 0 <= i < |tasks| =>
      if tasks[i].id == id then tasks[i].(done := !tasks[i].done) else tasks[i])
  }

  /** Toggling flips `done` on exactly the tasks with that id, leaves the rest of every
      record alone, and toggling twice restores the list. */
  lemma ToggledSpec(tasks: seq<Task>, id: Id)
    ensures |Toggled(tasks, id)| == |tasks|
    ensures forall i :: 0 <= i < |tasks| ==>
      Toggled(tasks, id)[i].(done := tasks[i].done) == tasks[i] &&
      (Toggled(tasks, id)[i].done != tasks[i].done <==> tasks[i].id == id)
    ensures Toggled(Toggled(tasks, id), id) == tasks
  {
  }

  /* ---- creditActiveTask ---- */

  /** The credit one task receives: `completed` goes up by one but not past `estimate`,
      and `done` is set once `completed` reaches `estimate`. */
  function Credit(t: Task): Task {
    var completed := if t.estimate < t.completed + 1 then t.estimate else t.completed + 1;
    t.(completed := completed, done := if completed >= t.estimate then true else t.done)
  }

  /** A credit that turns `done` from false to true. */
  predicate Flips(t: Task) {
    !t.done && Credit(t).done
  }

  /** The `tasks.map` of creditActiveTask. */
  function Credited(tasks: seq<Task>, id: Id): seq<Task> {
    seq(|tasks|, i requires 0 <= i < |tasks| => if tasks[i].id == id then Credit(tasks[i]) else tasks[i])
  }

  /** How many times the `tasks.map` callback of creditActiveTask runs `stats.tasksDone += 1`. */
  function FlipCount(tasks: seq<Task>, id: Id): nat
    decreases |tasks|
  {
    if tasks == [] then 0
    else FlipCount(tasks[..|tasks| - 1], id) + (if tasks[|tasks| - 1].id == id && Flips(tasks[|tasks| - 1]) then 1 else 0)
  }

  lemma CreditedSpec(tasks: seq<Task>, id: Id)
    ensures |Credited(tasks, id)| == |tasks|
    ensures forall i :: 0 <= i < |tasks| && tasks[i].id != id ==> Credited(tasks, id)[i] == tasks[i]
    ensures forall i :: 0 <= i < |tasks| && tasks[i].id == id ==>
      var t, c := tasks[i], Credited(tasks, id)[i];
      c.id == t.id && c.title == t.title && c.estimate == t.estimate &&
      c.completed == (if t.estimate < t.completed + 1 then t.estimate else t.completed + 1) &&
      c.done == (c.completed >= t.estimate || t.done)
  {
  }

  /** With unique ids, `tasksDone` goes up by one exactly when the matching task's `done`
      flips from false to true, and by nothing otherwise. */
  lemma {:induction false} FlipCountUnique(tasks: seq<Task>, id: Id)
    requires UniqueIds(tasks)
    ensures FlipCount(tasks, id) <= 1
    ensures FlipCount(tasks, id) == 1 <==> exists i :: 0 <= i < |tasks| && tasks[i].id == id && Flips(tasks[i])
  {
    if tasks != [] {
      var n := |tasks| - 1;
      var front := tasks[..n];
      assert UniqueIds(front);
      FlipCountUnique(front, id);
      if tasks[n].id == id && Flips(tasks[n]) {
        assert forall i :: 0 <= i < n ==> front[i].id != id;
      }
      if exists i :: 0 <= i < |tasks| && tasks[i].id == id && Flips(tasks[i]) {
        var i :| 0 <= i < |tasks| && tasks[i].id == id && Flips(tasks[i]);
        if i < n {
          assert front[i] == tasks[i];
        }
      }
    }
  }

  function CreditTimes(t: Task, n: nat): Task
    decreases n
  {
    if n == 0 then t else Credit(CreditTimes(t, n - 1))
  }

  /** Crediting a task n >= 1 times: `completed` is `min(estimate, completed + n)`, never
      above `estimate`, and `done` holds exactly when it already did or `completed + n`
      reached `estimate`. */
  lemma {:induction false} CreditRepeated(t: Task, n: nat)
    requires n >= 1
    ensures var c := CreditTimes(t, n);
      c.id == t.id && c.title == t.title && c.estimate == t.estimate &&
      c.completed == (if t.estimate < t.completed + n then t.estimate else t.completed + n) &&
      c.completed <= t.estimate &&
      (c.done <==> t.done || t.completed + n >= t.estimate)
  {
    if n > 1 {
      CreditRepeated(t, n - 1);
    }
  }

  /** However often a task is credited, its `done` flag flips from false to true at most once. */
  lemma CreditFlipsOnce(t: Task, n: nat, m: nat)
    requires Flips(CreditTimes(t, n)) && Flips(CreditTimes(t, m))
    ensures n == m
  {
    if n != m {
      var lo, hi := if n < m then n else m, if n < m then m else n;
      CreditRepeated(t, lo + 1);
      if lo == 0 {
        assert !CreditTimes(t, hi).done;
        CreditRepeated(t, hi);
      } else {
        CreditRepeated(t, lo);
        CreditRepeated(t, hi);
      }
    }
  }

  /* ---- deleteTask and clearCompletedTasks ---- */

  /** `tasks.filter(keep)` */
  function Filter(tasks: seq<Task>, keep: Task -> bool): (r: seq<Task>)
    ensures |r| <= |tasks|
    ensures forall t :: t in r <==> t in tasks && keep(t)
  {
    if tasks == [] then []
    else (if keep(tasks[0]) then [tasks[0]] else []) + Filter(tasks[1..], keep)
  }

  /** Filtering works piece by piece, so the survivors keep their order. */
  lemma {:induction false} FilterAppend(a: seq<Task>, b: seq<Task>, keep: Task -> bool)
    ensures Filter(a + b, keep) == Filter(a, keep) + Filter(b, keep)
  {
    if a != [] {
      assert (a + b)[1..] == a[1..] + b;
      FilterAppend(a[1..], b, keep);
    } else {
      assert a + b == b;
    }
  }

  lemma {:induction false} FilterKeepsUnique(tasks: seq<Task>, keep: Task -> bool)
    requires UniqueIds(tasks)
    ensures UniqueIds(Filter(tasks, keep))
  {
    if tasks != [] {
      assert UniqueIds(tasks[1..]);
      FilterKeepsUnique(tasks[1..], keep);
      var rest := Filter(tasks[1..], keep);
      forall t | t in rest ensures t.id != tasks[0].id {
        var k :| 0 <= k < |tasks[1..]| && tasks[1..][k] == t;
        assert tasks[k + 1] == t;
      }
      var r := Filter(tasks, keep);
      if keep(tasks[0]) {
        forall i, j | 0 <= i < j < |r| ensures r[i].id != r[j].id {
          if i == 0 {
            assert r[j] == rest[j - 1] && rest[j - 1] in rest;
          } else {
            assert r[i] == rest[i - 1] && r[j] == rest[j - 1];
          }
        }
      }
    }
  }

  /** deleteTask's `tasks.filter(task => task.id !== id)` */
  function Survivors(tasks: seq<Task>, id: Id): seq<Task> {
    Filter(tasks, (t: Task) => t.id != id)
  }

  /** clearCompletedTasks' `tasks.filter(task => !task.done)` */
  function Pending(tasks: seq<Task>): seq<Task> {
    Filter(tasks, (t: Task) => !t.done)
  }

  /** After deleting `id`, an active id still finds a task exactly when it did before and
      is not `id`; so clearing the active id when it was `id` leaves no new dangling link. */
  lemma SurvivorsRefers(tasks: seq<Task>, id: Id, a: Option<Id>)
    ensures Refers(Survivors(tasks, id), a) <==> Refers(tasks, a) && a != Some(id)
  {
    RefersIff(tasks, a);
    RefersIff(Survivors(tasks, id), a);
  }

  /** After clearing finished tasks, an active id finds a task exactly when some unfinished
      task carries it. */
  lemma PendingRefers(tasks: seq<Task>, a: Option<Id>)
    ensures Refers(Pending(tasks), a) <==> exists t :: t in tasks && !t.done && Some(t.id) == a
  {
    RefersIff(Pending(tasks), a);
  }

  /** Every ledger operation keeps task ids unique, given a fresh id for a new task. */
  lemma LedgerKeepsIdsUnique(tasks: seq<Task>, id: Id, newId: Id, title: string, estimate: Option<int>)
    requires UniqueIds(tasks)
    ensures UniqueIds(Toggled(tasks, id)) && UniqueIds(Credited(tasks, id))
    ensures UniqueIds(Survivors(tasks, id)) && UniqueIds(Pending(tasks))
    ensures !Refers(tasks, Some(newId)) ==> UniqueIds(tasks + [NewTask(newId, title, estimate)])
  {
    FilterKeepsUnique(tasks, (t: Task) => t.id != id);
    FilterKeepsUnique(tasks, (t: Task) => !t.done);
  }
}
