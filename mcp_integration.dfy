/** Task export of the MCP integration: one task record per action item,
    numbered `task_1`, `task_2`, ... in item order.  The clock is a
    parameter: `clock(k)` is what the k-th read of `datetime.now().isoformat()`
    gives, one read per item. */
module McpIntegration {
  import opened Strings

  datatype Task = Task(id: string, title: string, source: string, status: string, createdAt: string)

  /** The id of the task at position `idx` (from 0). */
  function TaskId(idx: nat): string {
    "task_" + NatToString(idx + 1)
  }

  /** Different positions give different ids. */
  lemma TaskIdsDistinct(i: nat, j: nat)
    requires i != j
    ensures TaskId(i) != TaskId(j)
  {
    DigitsValueOfNatToString(i + 1);
    DigitsValueOfNatToString(j + 1);
    assert TaskId(i)[5..] == NatToString(i + 1);
    assert TaskId(j)[5..] == NatToString(j + 1);
  }

  /** The clock reads in order: `clock(k)` is the value of the k-th. */
  type Clock = nat -> string

  /** The export of a list of items: the task for each item, at its
      position, stamped with the clock read made for it. */
  function Export(actionItems: seq<string>, meetingTitle: string, clock: Clock): (tasks: seq<Task>)
    ensures |tasks| == |actionItems|
    ensures forall k :: 0 <= k < |tasks| ==> tasks[k].title == actionItems[k] && tasks[k].status == "pending"
  {
    seq(|actionItems|, k requires 0 <= k < |actionItems| =>
      Task(TaskId(k), actionItems[k], "Meeting: " + meetingTitle, "pending", clock(k)))
  }

  /** The ids of an export are pairwise different. */
  lemma ExportIdsUnique(actionItems: seq<string>, meetingTitle: string, clock: Clock)
    ensures forall i, j :: 0 <= i < j < |actionItems| ==>
      Export(actionItems, meetingTitle, clock)[i].id != Export(actionItems, meetingTitle, clock)[j].id
  {
    forall i, j | 0 <= i < j < |actionItems|
      ensures Export(actionItems, meetingTitle, clock)[i].id != Export(actionItems, meetingTitle, clock)[j].id
    {
      TaskIdsDistinct(i, j);
    }
  }

  /** `create_task_export` with `datetime` imported: one pending task per
      item, in order, with sequential ids, the meeting as source and the
      clock read once for each item. */
  method CreateTaskExport(actionItems: seq<string>, meetingTitle: string, clock: Clock) returns (tasks: seq<Task>)
    ensures tasks == Export(actionItems, meetingTitle, clock)
    ensures forall k :: 0 <= k < |tasks| ==>
      tasks[k] == Task(TaskId(k), actionItems[k], "Meeting: " + meetingTitle, "pending", clock(k))
    ensures forall i, j :: 0 <= i < j < |tasks| ==> tasks[i].id != tasks[j].id
  {
    tasks := [];
    for idx := 0 to |actionItems|
      invariant |tasks| == idx
      invariant forall k :: 0 <= k < idx ==>
        tasks[k] == Task(TaskId(k), actionItems[k], "Meeting: " + meetingTitle, "pending", clock(k))
    {
      tasks := tasks + [Task("task_" + NatToString(idx + 1), actionItems[idx], "Meeting: " + meetingTitle, "pending", clock(idx))];
    }
    ExportIdsUnique(actionItems, meetingTitle, clock);
  }

  /** What running the function ends in: the tasks, or the NameError of a
      global name that is not bound. */
  datatype Outcome = Tasks(tasks: seq<Task>) | NameError(name: string)

  /** The global names of the module: its two imports and its two
      functions. */
  const ModuleNames: set<string> := {"json", "os", "export_to_mcp_format", "create_task_export"}

  /** `create_task_export` as written, run with the global names `names`
      bound.  Each record is built field by field, and its `created_at`
      evaluates `datetime.now().isoformat()`: the lookup of `datetime`
      raises NameError when the name is not bound, and otherwise the clock
      is read once more. */
  method CreateTaskExportAsWritten(actionItems: seq<string>, meetingTitle: string, names: set<string>, clock: Clock)
    returns (out: Outcome)
    ensures "datetime" in names ==> out == Tasks(Export(actionItems, meetingTitle, clock))
    ensures "datetime" !in names ==> (out == NameError("datetime") <==> |actionItems| > 0)
    ensures "datetime" !in names && |actionItems| == 0 ==> out == Tasks([])
  {
    var tasks: seq<Task> := [];
    for idx := 0 to |actionItems|
      invariant "datetime" !in names ==> idx == 0
      invariant |tasks| == idx
      invariant forall k :: 0 <= k < idx ==>
        tasks[k] == Task(TaskId(k), actionItems[k], "Meeting: " + meetingTitle, "pending", clock(k))
    {
      var id := "task_" + NatToString(idx + 1);
      var title := actionItems[idx];
      var source := "Meeting: " + meetingTitle;
      var status := "pending";
      if "datetime" !in names {
        return NameError("datetime");
      }
      var createdAt := clock(idx);
      tasks := tasks + [Task(id, title, source, status, createdAt)];
    }
    return Tasks(tasks);
  }

  /** The module does not bind `datetime`.  Together with the second
      postcondition of `CreateTaskExportAsWritten`, run with `ModuleNames`,
      this gives NameError for every non-empty list. */
  lemma ModuleLacksDatetime()
    ensures "datetime" !in ModuleNames
  {
  }
}
