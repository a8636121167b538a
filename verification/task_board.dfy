/** The Kanban board (components/TaskBoard.tsx): a private list of tasks,
    moved between the four status columns by drag and drop, re-dated in
    place, and extended by quick-add and AI-assisted add. */
module TaskBoard {
  import opened Types
  import opened Text

  /** `k` is the position of the first task whose id is `id`. */
  predicate IsFirstWithId(tasks: seq<Task>, id: string, k: int) {
    0 <= k < |tasks| && tasks[k].id == id
    && forall j :: 0 <= j < k ==> tasks[j].id != id
  }

  /** `tasks.find(t => t.id === id)`. */
  function FindTask(tasks: seq<Task>, id: string): (r: Option<Task>)
    ensures r.None? <==> forall i :: 0 <= i < |tasks| ==> tasks[i].id != id
    ensures r.Some? ==> exists k :: IsFirstWithId(tasks, id, k) && tasks[k] == r.value
  {
    if |tasks| == 0 then None
    else if tasks[0].id == id then
      assert IsFirstWithId(tasks, id, 0);
      Some(tasks[0])
    else
      var r := FindTask(tasks[1..], id);
      if r.Some? then
        var k :| IsFirstWithId(tasks[1..], id, k) && tasks[1..][k] == r.value;
        assert IsFirstWithId(tasks, id, k + 1);
        r
      else r
  }

  /** Only one position can be the first with a given id. */
  lemma FirstWithIdUnique(tasks: seq<Task>, id: string, k: int, m: int)
    requires IsFirstWithId(tasks, id, k) && IsFirstWithId(tasks, id, m)
    ensures k == m
  {
  }

  predicate DistinctTaskIds(tasks: seq<Task>) {
    forall i, j :: 0 <= i < j < |tasks| ==> tasks[i].id != tasks[j].id
  }

  /** `tasks.map(t => t.id === id ? { ...t, status } : t)`. */
  function SetStatus(tasks: seq<Task>, id: string, status: TaskStatus): (r: seq<Task>)
    ensures |r| == |tasks|
    ensures forall i :: 0 <= i < |tasks| ==>
              r[i] == if tasks[i].id == id then tasks[i].(status := status) else tasks[i]
  {
    seq(|tasks|, i requires 0 <= i < |tasks| =>
      if tasks[i].id == id then tasks[i].(status := status) else tasks[i])
  }

  /** `tasks.map(t => t.id === id ? { ...t, dueDate } : t)` (updateTaskDate). */
  function SetDueDate(tasks: seq<Task>, id: string, dueDate: string): (r: seq<Task>)
    ensures |r| == |tasks|
    ensures forall i :: 0 <= i < |tasks| ==>
              r[i] == if tasks[i].id == id then tasks[i].(dueDate := dueDate) else tasks[i]
  {
    seq(|tasks|, i requires 0 <= i < |tasks| =>
      if tasks[i].id == id then tasks[i].(dueDate := dueDate) else tasks[i])
  }

  /** The task list after the task named by the drag payload is dropped on the
      `status` column (handleDrop): a move happens only when the first task
      with that id exists and sits in another column; it then retargets every
      task with that id. No other task and no other field changes. */
  function Dropped(tasks: seq<Task>, payload: string, status: TaskStatus): (r: seq<Task>)
    ensures |r| == |tasks|
    ensures forall i :: 0 <= i < |tasks| ==>
              r[i] == tasks[i] || (tasks[i].id == payload && r[i] == tasks[i].(status := status))
    ensures (exists k :: IsFirstWithId(tasks, payload, k) && tasks[k].status != status) ==>
              forall i :: 0 <= i < |tasks| && tasks[i].id == payload ==> r[i].status == status
    ensures (forall k :: IsFirstWithId(tasks, payload, k) ==> tasks[k].status == status) ==>
              r == tasks
  {
    match FindTask(tasks, payload)
    case None => tasks
    case Some(t) =>
      if t.status != status then
        assert forall k :: IsFirstWithId(tasks, payload, k) ==> tasks[k] == t by {
          forall k | IsFirstWithId(tasks, payload, k) ensures tasks[k] == t {
            var m :| IsFirstWithId(tasks, payload, m) && tasks[m] == t;
            FirstWithIdUnique(tasks, payload, k, m);
          }
        }
        SetStatus(tasks, payload, status)
      else
        tasks
  }

  /** Dropping the same task on the same column twice is the same as once. */
  lemma DropIdempotent(tasks: seq<Task>, payload: string, status: TaskStatus)
    ensures Dropped(Dropped(tasks, payload, status), payload, status) == Dropped(tasks, payload, status)
  {
    var r := Dropped(tasks, payload, status);
    forall k | IsFirstWithId(r, payload, k) ensures r[k].status == status {
      assert IsFirstWithId(tasks, payload, k);
    }
  }

  /** With unique ids, the dropped task ends in the drop column whatever column
      it came from: a task's status is the target of its latest drop. */
  lemma DropLandsInColumn(tasks: seq<Task>, payload: string, status: TaskStatus, i: int)
    requires DistinctTaskIds(tasks)
    requires 0 <= i < |tasks| && tasks[i].id == payload
    ensures Dropped(tasks, payload, status)[i] == tasks[i].(status := status)
  {
    assert IsFirstWithId(tasks, payload, i);
  }

  /** `tasks.filter(t => t.status === status)`: one column of the board, in
      store order. */
  function Column(tasks: seq<Task>, status: TaskStatus): (r: seq<Task>)
    ensures |r| <= |tasks|
    ensures forall i :: 0 <= i < |r| ==> r[i].status == status
  {
    if |tasks| == 0 then []
    else
      (if tasks[0].status == status then [tasks[0]] else []) + Column(tasks[1..], status)
  }

  /** A column holds every task of its status, as many times as the store
      does, and nothing else. */
  lemma {:induction false} ColumnMultiset(tasks: seq<Task>, status: TaskStatus, t: Task)
    ensures multiset(Column(tasks, status))[t] ==
            if t.status == status then multiset(tasks)[t] else 0
  {
    if |tasks| > 0 {
      assert tasks == [tasks[0]] + tasks[1..];
      ColumnMultiset(tasks[1..], status, t);
    }
  }

  /** Appending a task extends exactly its own column. */
  lemma {:induction false} ColumnAppend(tasks: seq<Task>, t: Task, status: TaskStatus)
    ensures Column(tasks + [t], status) ==
            Column(tasks, status) + (if t.status == status then [t] else [])
  {
    var tail := if t.status == status then [t] else [];
    if |tasks| == 0 {
      assert Column([t], status) == tail + Column([], status);
    } else {
      var head := if tasks[0].status == status then [tasks[0]] else [];
      assert (tasks + [t])[1..] == tasks[1..] + [t];
      ColumnAppend(tasks[1..], t, status);
      calc {
        Column(tasks + [t], status);
        head + Column(tasks[1..] + [t], status);
        head + (Column(tasks[1..], status) + tail);
        (head + Column(tasks[1..], status)) + tail;
        Column(tasks, status) + tail;
      }
    }
  }

  /** The four column counts add up to the number of tasks: every task is in
      exactly one column. */
  lemma {:induction false} ColumnCountsSum(tasks: seq<Task>)
    ensures |Column(tasks, TODO)| + |Column(tasks, IN_PROGRESS)|
            + |Column(tasks, REVIEW)| + |Column(tasks, DONE)| == |tasks|
  {
    if |tasks| > 0 {
      ColumnCountsSum(tasks[1..]);
    }
  }

  /** Moving t1 from To Do to In Progress leaves To Do empty and In Progress
      holding only t1. */
  lemma DropExample(t1: Task, t2: Task)
    requires t1.id == "t1" && t1.status == TODO
    requires t2.id == "t2" && t2.status == DONE
    ensures Column(Dropped([t1, t2], "t1", IN_PROGRESS), IN_PROGRESS) == [t1.(status := IN_PROGRESS)]
    ensures Column(Dropped([t1, t2], "t1", IN_PROGRESS), TODO) == []
  {
    assert IsFirstWithId([t1, t2], "t1", 0);
    var r := Dropped([t1, t2], "t1", IN_PROGRESS);
    assert r == [t1.(status := IN_PROGRESS), t2];
    assert r[1..][1..] == [];
  }

  /** The card a quick-add creates in the `status` column. */
  function QuickTask(status: TaskStatus, title: string, nowMs: nat, nowIso: string): (t: Task)
    ensures t.title == title && t.status == status && t.priority == MEDIUM && t.assignee.None?
    ensures AllDigits(t.id) && DigitsValue(t.id) == nowMs
  {
    NatToStringRoundTrip(nowMs);
    Task(NatToString(nowMs), title, "Needs description...", status, MEDIUM, None, nowIso, None)
  }

  /** The card AI-assisted add creates once the description has arrived. */
  function AiTask(title: string, description: string, nowMs: nat, nowIso: string): (t: Task)
    ensures t.title == title && t.description == description && t.status == TODO
    ensures t.priority == MEDIUM && t.assignee.None?
    ensures AllDigits(t.id) && DigitsValue(t.id) == nowMs
  {
    NatToStringRoundTrip(nowMs);
    Task(NatToString(nowMs), title, description, TODO, MEDIUM, None, nowIso, None)
  }

  /** A `prompt` answer is usable when it was not cancelled and is not empty. */
  predicate Usable(answer: Option<string>) {
    answer.Some? && answer.value != ""
  }

  /** handleQuickAdd: a usable title appends one card to the end of the list. */
  function QuickAdded(tasks: seq<Task>, status: TaskStatus, title: Option<string>,
                      nowMs: nat, nowIso: string): (r: seq<Task>)
    ensures !Usable(title) ==> r == tasks
    ensures Usable(title) ==> |r| == |tasks| + 1 && r[..|tasks|] == tasks
    ensures Usable(title) ==> r[|tasks|].title == title.value && r[|tasks|].status == status
                              && r[|tasks|].priority == MEDIUM
                              && r[|tasks|].description == "Needs description..."
  {
    if Usable(title) then tasks + [QuickTask(status, title.value, nowMs, nowIso)] else tasks
  }

  /** A quick-added card shows up at the bottom of the column it was added from. */
  lemma QuickAddLandsInColumn(tasks: seq<Task>, status: TaskStatus, title: string,
                              nowMs: nat, nowIso: string)
    requires title != ""
    ensures Column(QuickAdded(tasks, status, Some(title), nowMs, nowIso), status)
            == Column(tasks, status) + [QuickTask(status, title, nowMs, nowIso)]
  {
    ColumnAppend(tasks, QuickTask(status, title, nowMs, nowIso), status);
  }

  /** handleCreateTaskWithAI as written: after the await it stores the
      `tasks` its closure captured when the handler started (`snapshot`) plus
      the new card, whatever the list has become meanwhile (`current`). The
      result misses the intended `current + [card]` whenever the list changed
      during the await, and meets it when it did not. */
  function AiAddAsWritten(snapshot: seq<Task>, current: seq<Task>, card: Task): (r: seq<Task>)
    ensures |r| == |snapshot| + 1 && r[..|snapshot|] == snapshot && r[|snapshot|] == card
    ensures current != snapshot ==> r != current + [card]
    ensures current == snapshot ==> r == current + [card]
  {
    snapshot + [card]
  }

  /** A drop made while the description is pending is lost by the code as
      written: the stored list starts with the tasks as they were before the
      drop, and differs from the dropped list plus the new card whenever the
      drop moved anything. */
  lemma StaleSnapshotLosesDrop(tasks: seq<Task>, payload: string, status: TaskStatus, card: Task)
    ensures AiAddAsWritten(tasks, Dropped(tasks, payload, status), card)[..|tasks|] == tasks
    ensures Dropped(tasks, payload, status) != tasks ==>
              AiAddAsWritten(tasks, Dropped(tasks, payload, status), card)
              != Dropped(tasks, payload, status) + [card]
  {
  }

  /** Such a drop exists: moving a To Do card to Done changes the list. */
  lemma DropCanMoveCard(t1: Task)
    requires t1.status == TODO
    ensures Dropped([t1], t1.id, DONE) != [t1]
  {
    assert IsFirstWithId([t1], t1.id, 0);
    assert Dropped([t1], t1.id, DONE)[0].status == DONE;
  }

  class Board {
    var tasks: seq<Task>
    var loadingAI: bool
    var activeDragId: Option<string>
    var dragOverColumn: Option<TaskStatus>
    /** The `tasks` the pending AI-assisted add captured when it started. */
    var aiSnapshot: seq<Task>

    /** The board starts from the tasks it is given, idle. */
    constructor (initialTasks: seq<Task>)
      ensures tasks == initialTasks
      ensures !loadingAI && activeDragId == None && dragOverColumn == None
      ensures aiSnapshot == initialTasks
    {
      tasks := initialTasks;
      aiSnapshot := initialTasks;
      loadingAI := false;
      activeDragId := None;
      dragOverColumn := None;
    }

    /** The effect that copies the `tasks` prop: local moves are overwritten. */
    method SyncFromProps(initialTasks: seq<Task>)
      modifies this`tasks
      ensures tasks == initialTasks
    {
      tasks := initialTasks;
    }

    /** handleDragStart: the drag carries the task id and the card is marked. */
    method DragStart(taskId: string) returns (payload: string)
      modifies this`activeDragId
      ensures payload == taskId && activeDragId == Some(taskId)
    {
      payload := taskId;
      activeDragId := Some(taskId);
    }

    /** handleDragOver: the hovered column becomes the highlighted one. */
    method DragOver(status: TaskStatus)
      modifies this`dragOverColumn
      ensures dragOverColumn == Some(status)
    {
      if dragOverColumn != Some(status) {
        dragOverColumn := Some(status);
      }
    }

    /** handleDragLeave: no column is highlighted. */
    method DragLeave()
      modifies this`dragOverColumn
      ensures dragOverColumn == None
    {
      dragOverColumn := None;
    }

    /** handleDrop: the move of Dropped, and the drag state is cleared whether
        or not anything moved. */
    method Drop(payload: string, status: TaskStatus)
      modifies this`tasks, this`dragOverColumn, this`activeDragId
      ensures tasks == Dropped(old(tasks), payload, status)
      ensures dragOverColumn == None && activeDragId == None
    {
      dragOverColumn := None;
      var task := FindTask(tasks, payload);
      if task.Some? && task.value.status != status {
        tasks := SetStatus(tasks, payload, status);
      }
      activeDragId := None;
    }

    /** updateTaskDate: only the due date of the matching tasks changes. */
    method UpdateTaskDate(taskId: string, newDate: string)
      modifies this`tasks
      ensures tasks == SetDueDate(old(tasks), taskId, newDate)
    {
      tasks := SetDueDate(tasks, taskId, newDate);
    }

    /** handleQuickAdd, with the `prompt` answer and the clock as inputs. */
    method QuickAdd(status: TaskStatus, title: Option<string>, nowMs: nat, nowIso: string)
      modifies this`tasks
      ensures tasks == QuickAdded(old(tasks), status, title, nowMs, nowIso)
    {
      if Usable(title) {
        tasks := tasks + [QuickTask(status, title.value, nowMs, nowIso)];
      }
    }

    /** First half of handleCreateTaskWithAI, up to the await: a usable title
        switches the board to loading, captures the current tasks, and starts
        the request. */
    method BeginAiAdd(title: Option<string>) returns (request: Option<string>)
      modifies this`loadingAI, this`aiSnapshot
      ensures request == if Usable(title) then title else None
      ensures request.Some? ==> loadingAI && aiSnapshot == tasks
      ensures request.None? ==> loadingAI == old(loadingAI) && aiSnapshot == old(aiSnapshot)
    {
      request := None;
      if Usable(title) {
        loadingAI := true;
        aiSnapshot := tasks;
        request := title;
      }
    }

    /** Second half as written: loading ends and the captured tasks plus the
        new card replace whatever the list has become. */
    method CompleteAiAddAsWritten(title: string, description: string, nowMs: nat, nowIso: string)
      modifies this`tasks, this`loadingAI
      ensures !loadingAI
      ensures tasks == AiAddAsWritten(aiSnapshot, old(tasks), AiTask(title, description, nowMs, nowIso))
    {
      loadingAI := false;
      tasks := aiSnapshot + [AiTask(title, description, nowMs, nowIso)];
    }

    /** Second half, when the generated description arrives: loading ends and
        one To Do card of Medium priority is appended to the current tasks. */
    method CompleteAiAdd(title: string, description: string, nowMs: nat, nowIso: string)
      modifies this`tasks, this`loadingAI
      ensures !loadingAI
      ensures tasks == old(tasks) + [AiTask(title, description, nowMs, nowIso)]
    {
      loadingAI := false;
      tasks := tasks + [AiTask(title, description, nowMs, nowIso)];
    }

    /** The whole AI-assisted add when nothing else happens during the await. */
    method CreateTaskWithAI(title: Option<string>, description: string, nowMs: nat, nowIso: string)
      modifies this`tasks, this`loadingAI, this`aiSnapshot
      ensures !Usable(title) ==> tasks == old(tasks) && loadingAI == old(loadingAI)
      ensures Usable(title) ==>
                !loadingAI && tasks == old(tasks) + [AiTask(title.value, description, nowMs, nowIso)]
    {
      var request := BeginAiAdd(title);
      if request.Some? {
        CompleteAiAdd(request.value, description, nowMs, nowIso);
      }
    }

    /** An AI-assisted add with a drop during the await, as written: the drop
        is lost and the list is the one from before it plus the new card. */
    method AiAddAcrossDropAsWritten(title: string, payload: string, status: TaskStatus,
                                    description: string, nowMs: nat, nowIso: string)
      requires title != ""
      modifies this`tasks, this`loadingAI, this`aiSnapshot, this`dragOverColumn, this`activeDragId
      ensures tasks == old(tasks) + [AiTask(title, description, nowMs, nowIso)]
      ensures Dropped(old(tasks), payload, status) != old(tasks) ==>
                tasks != Dropped(old(tasks), payload, status) + [AiTask(title, description, nowMs, nowIso)]
    {
      var request := BeginAiAdd(Some(title));
      Drop(payload, status);
      CompleteAiAddAsWritten(title, description, nowMs, nowIso);
    }

    /** The same sequence with the corrected completion: the drop is kept and
        the new card follows it. */
    method AiAddAcrossDrop(title: string, payload: string, status: TaskStatus,
                           description: string, nowMs: nat, nowIso: string)
      requires title != ""
      modifies this`tasks, this`loadingAI, this`aiSnapshot, this`dragOverColumn, this`activeDragId
      ensures tasks == Dropped(old(tasks), payload, status) + [AiTask(title, description, nowMs, nowIso)]
      ensures !loadingAI
    {
      var request := BeginAiAdd(Some(title));
      Drop(payload, status);
      CompleteAiAdd(title, description, nowMs, nowIso);
    }
  }
}
