/** The admin's "assign task" form (AdminTaskModal.tsx): five form fields and
    a submit handler that emits a task payload and clears the form. */
module AssignTaskForm {
  import opened Types

  /** The object handed to `onAssign`. */
  datatype TaskPayload = TaskPayload(
    title: string,
    description: string,
    dueDate: string,
    assignee: Option<User>,
    priority: Priority,
    status: TaskStatus,
    image: Option<string>)

  /** The callbacks the form invokes, in the order it invokes them. */
  datatype Event = Assign(payload: TaskPayload) | Close

  /** The payload built from the current field values: the assignee is looked
      up by id among the members, the status is always To Do, and every other
      field is passed on as entered. */
  function BuildPayload(title: string, desc: string, date: string, assigneeId: string,
                        priority: Priority, imagePreview: Option<string>,
                        members: seq<User>): (p: TaskPayload)
    ensures p.status == TODO
    ensures p.title == title && p.description == desc && p.dueDate == date
    ensures p.priority == priority && p.image == imagePreview
    ensures p.assignee.Some? ==> p.assignee.value in members && p.assignee.value.id == assigneeId
    ensures p.assignee.None? <==> forall i :: 0 <= i < |members| ==> members[i].id != assigneeId
  {
    TaskPayload(title, desc, date, FindUser(members, assigneeId), priority, TODO, imagePreview)
  }

  /** The assignee is the FIRST member with the selected id. */
  lemma AssigneeIsFirstMatch(members: seq<User>, assigneeId: string, k: int)
    requires 0 <= k < |members| && members[k].id == assigneeId
    requires forall j :: 0 <= j < k ==> members[j].id != assigneeId
    ensures FindUser(members, assigneeId) == Some(members[k])
  {
    var r := FindUser(members, assigneeId);
    var m :| 0 <= m < |members| && members[m] == r.value && r.value.id == assigneeId
             && forall j :: 0 <= j < m ==> members[j].id != assigneeId;
    assert !(m < k) && !(k < m);
  }

  class AdminTaskModal {
    var title: string
    var desc: string
    var date: string
    var assigneeId: string
    var priority: Priority
    var imagePreview: Option<string>

    constructor ()
      ensures title == "" && desc == "" && date == "" && assigneeId == ""
      ensures priority == MEDIUM && imagePreview == None
    {
      title, desc, date, assigneeId := "", "", "", "";
      priority := MEDIUM;
      imagePreview := None;
    }

    /** handleImageChange, with the chosen file already read as a data URL. */
    method SetImagePreview(dataUrl: string)
      modifies this`imagePreview
      ensures imagePreview == Some(dataUrl)
    {
      imagePreview := Some(dataUrl);
    }

    /** handleSubmit: there is no guard; the payload is emitted, the text
        fields, the assignee and the image are cleared (the priority is kept),
        and the form closes after the payload has been handed over. */
    method Submit(members: seq<User>) returns (events: seq<Event>)
      modifies this
      ensures events == [Assign(BuildPayload(old(title), old(desc), old(date), old(assigneeId),
                                             old(priority), old(imagePreview), members)), Close]
      ensures title == "" && desc == "" && date == "" && assigneeId == ""
      ensures imagePreview == None && priority == old(priority)
    {
      var assignee := FindUser(members, assigneeId);
      events := [Assign(TaskPayload(title, desc, date, assignee, priority, TODO, imagePreview))];
      title := "";
      desc := "";
      date := "";
      assigneeId := "";
      imagePreview := None;
      events := events + [Close];
    }
  }
}
