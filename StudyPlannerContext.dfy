/** The study planner's task store: the list of tasks held by the React
    provider, the two operations that replace it (`addTask`, `toggleComplete`)
    and the completion percentage derived from it (`progress`). */
module StudyPlannerContext {
  import opened Wrappers

  /** A study task. `due` and `notes` are optional; `id` is unique in practice. */
  datatype Task = Task(id: string, title: string, due: Option<string>, completed: bool, notes: Option<string>)

  /** The ids present in a task list. */
  function Ids(s: seq<Task>): set<string> {
    set t | t in s :: t.id
  }

  /** No two tasks of the list share an id. */
  predicate UniqueIds(s: seq<Task>) {
    forall i, j :: 0 <= i < j < |s| ==> s[i].id != s[j].id
  }

  /** The task `t` after `toggleComplete(id)`: flipped when its id matches. */
  function ToggleIfMatch(t: Task, id: string): (r: Task)
    ensures r.id == t.id && r.title == t.title && r.due == t.due && r.notes == t.notes
    ensures r.completed == (if t.id == id then !t.completed else t.completed)
  {
    if t.id == id then t.(completed := !t.completed) else t
  }

  /** The list after `toggleComplete(id)`: each task mapped through `ToggleIfMatch`. */
  function Toggled(s: seq<Task>, id: string): (r: seq<Task>)
    ensures |r| == |s|
    ensures forall i :: 0 <= i < |s| ==> r[i] == ToggleIfMatch(s[i], id)
  {
    seq(|s|, i requires 0 <= i < |s| => ToggleIfMatch(s[i], id))
  }

  /** Number of completed tasks: `tasks.filter(t => t.completed).length`. */
  function CompletedCount(s: seq<Task>): (c: nat)
    ensures c <= |s|
    ensures c == |s| <==> forall i :: 0 <= i < |s| ==> s[i].completed
    ensures c == 0 <==> forall i :: 0 <= i < |s| ==> !s[i].completed
  {
    if s == [] then 0
    else (if s[0].completed then 1 else 0) + CompletedCount(s[1..])
  }

  /** `progress`: 0 for an empty list, otherwise `Math.round(c / n * 100)`,
      computed exactly as `(200c + n) div 2n`; `ProgressRounds` states what
      this rounding means. */
  function ProgressOf(s: seq<Task>): (p: nat)
    ensures p <= 100
    ensures s == [] ==> p == 0
  {
    if |s| == 0 then 0
    else
      RoundHalfUp(CompletedCount(s), |s|);
      RoundedPercent(CompletedCount(s), |s|)
  }

  /** `Math.round(c / n * 100)` in exact integer arithmetic. */
  function RoundedPercent(c: nat, n: nat): nat
    requires n > 0
  {
    (200 * c + n) / (2 * n)
  }

  /** `progress` lies in 0..100; it is 0 for an empty list and otherwise the
      completion percentage `100c/n` rounded half up, that is the integer `p`
      with `p - 1/2 <= 100c/n < p + 1/2`; it is 100 when every task is
      completed and 0 when none is. */
  lemma ProgressRounds(s: seq<Task>)
    ensures 0 <= ProgressOf(s) <= 100
    ensures s == [] ==> ProgressOf(s) == 0
    ensures s != [] ==>
      2 * |s| * ProgressOf(s) - |s| <= 200 * CompletedCount(s) < 2 * |s| * ProgressOf(s) + |s|
    ensures s != [] && CompletedCount(s) == |s| ==> ProgressOf(s) == 100
    ensures s != [] && CompletedCount(s) == 0 ==> ProgressOf(s) == 0
  {
    if s != [] {
      RoundHalfUp(CompletedCount(s), |s|);
    }
  }

  /** The integer division `(200c + n) div 2n` is the percentage `100c/n`
      rounded half up, and stays within 0..100 when `c <= n`. */
  lemma RoundHalfUp(c: nat, n: nat)
    requires 0 < n && c <= n
    ensures var p := RoundedPercent(c, n);
      p <= 100 && 2 * n * p - n <= 200 * c < 2 * n * p + n &&
      (c == n ==> p == 100) && (c == 0 ==> p == 0)
  {
    var x, d := 200 * c + n, 2 * n;
    var p := RoundedPercent(c, n);
    assert p == x / d;
    var dp := d * p;
    assert dp <= x < dp + d;
    assert 2 * n * p == dp;
    assert 0 <= p by {
      if p < 0 { MulBelow(d, p, -1); }
    }
    assert p <= 100 by {
      if p > 100 { MulBelow(d, 101, p); }
    }
    if c == n {
      assert p == 100 by {
        if p < 100 { MulBelow(d, p, 99); }
      }
    }
    if c == 0 {
      assert p == 0 by {
        if p > 0 { MulBelow(d, 1, p); }
      }
    }
  }

  /** The converse of the last two facts of `RoundHalfUp` fails: with 201
      tasks, 200 completed already round to 100 and 1 completed to 0. */
  lemma RoundingHidesOneTask()
    ensures RoundedPercent(200, 201) == 100 && RoundedPercent(1, 201) == 0
  {
  }

  /** Multiplying by a positive factor keeps the order. */
  lemma MulBelow(d: int, a: int, b: int)
    requires 0 < d && a <= b
    ensures d * a <= d * b
  {
  }

  /** A list of tasks whose ids stay unique as long as new ids are fresh. */
  lemma {:induction false} AddKeepsIdsUnique(s: seq<Task>, t: Task)
    requires UniqueIds(s) && t.id !in Ids(s)
    ensures UniqueIds([t] + s)
    ensures Ids([t] + s) == Ids(s) + {t.id}
  {
    var r := [t] + s;
    forall i, j | 0 <= i < j < |r| ensures r[i].id != r[j].id {
      if i == 0 { assert r[j] == s[j - 1] && r[j] in s; }
    }
  }

  /** Prepending a fresh, incomplete task leaves the completed count unchanged. */
  lemma AddKeepsCompletedCount(s: seq<Task>, t: Task)
    requires !t.completed
    ensures CompletedCount([t] + s) == CompletedCount(s)
    ensures |[t] + s| == |s| + 1
  {
    assert ([t] + s)[1..] == s;
  }

  /** Toggling the same id twice restores the original list. */
  lemma ToggleTwice(s: seq<Task>, id: string)
    ensures Toggled(Toggled(s, id), id) == s
  {
  }

  /** Toggling an id that no task carries leaves the list unchanged. */
  lemma ToggleUnknown(s: seq<Task>, id: string)
    requires id !in Ids(s)
    ensures Toggled(s, id) == s
  {
    forall i | 0 <= i < |s| ensures Toggled(s, id)[i] == s[i] {
      assert s[i] in s;
    }
  }

  /** Toggling keeps the set of ids, hence their uniqueness. */
  lemma ToggleKeepsIds(s: seq<Task>, id: string)
    ensures Ids(Toggled(s, id)) == Ids(s)
    ensures UniqueIds(s) ==> UniqueIds(Toggled(s, id))
  {
    var r := Toggled(s, id);
    forall x | x in Ids(r) ensures x in Ids(s) {
      var i :| 0 <= i < |r| && r[i].id == x;
      assert s[i] in s;
    }
    forall x | x in Ids(s) ensures x in Ids(r) {
      var i :| 0 <= i < |s| && s[i].id == x;
      assert r[i] in r;
    }
  }

  /** With unique ids, toggling an id that is present moves the completed
      count by exactly one, in the direction of the flip. */
  lemma {:induction false} ToggleMovesCountByOne(s: seq<Task>, id: string, k: nat)
    requires UniqueIds(s) && k < |s| && s[k].id == id
    ensures CompletedCount(Toggled(s, id)) ==
      if s[k].completed then CompletedCount(s) - 1 else CompletedCount(s) + 1
  {
    var r := Toggled(s, id);
    assert r[1..] == Toggled(s[1..], id);
    if k == 0 {
      ToggleUnknown(s[1..], id);
    } else {
      assert s[0].id != id;
      ToggleMovesCountByOne(s[1..], id, k - 1);
    }
  }

  /** The provider's state: the current task list. */
  class StudyPlanner {
    var tasks: seq<Task>

    /** The provider starts from the tasks restored from storage (empty when none). */
    constructor (stored: seq<Task>)
      ensures tasks == stored
    {
      tasks := stored;
    }

    /** `addTask`: builds an incomplete task with a fresh id, puts it in front
        of the list and returns it. */
    method AddTask(id: string, title: string, due: Option<string>, notes: Option<string>) returns (t: Task)
      requires id !in Ids(tasks)
      modifies this
      ensures t.id == id && t.title == title && t.due == due && t.notes == notes && !t.completed
      ensures tasks == [t] + old(tasks)
      ensures UniqueIds(old(tasks)) ==> UniqueIds(tasks)
    {
      t := Task(id, title, due, false, notes);
      if UniqueIds(tasks) { AddKeepsIdsUnique(tasks, t); }
      tasks := [t] + tasks;
    }

    /** `toggleComplete`: flips `completed` on the tasks whose id is `id`. */
    method ToggleComplete(id: string)
      modifies this
      ensures tasks == Toggled(old(tasks), id)
      ensures UniqueIds(old(tasks)) ==> UniqueIds(tasks)
    {
      ToggleKeepsIds(tasks, id);
      tasks := Toggled(tasks, id);
    }

    /** `progress` for the current list: the completion percentage of the
        tasks rounded half up, 0 while the list is empty and 100 once every
        task is completed. */
    function Progress(): (p: nat)
      reads this
      ensures p == ProgressOf(tasks)
      ensures p <= 100
      ensures tasks == [] ==> p == 0
      ensures tasks != [] ==>
        2 * |tasks| * p - |tasks| <= 200 * CompletedCount(tasks) < 2 * |tasks| * p + |tasks|
      ensures tasks != [] && CompletedCount(tasks) == |tasks| ==> p == 100
    {
      ProgressRounds(tasks);
      ProgressOf(tasks)
    }
  }
}
