/** The project create/edit dialog (components/ProjectModal.tsx): the form
    state loaded on open, the member toggle, and the submit handler that
    fills in defaults and hands the project to the shell. */
module ProjectForm {
  import opened Types
  import opened Text

  /** The form's fields that the submit handler reads. */
  datatype ProjectDraft = ProjectDraft(
    name: string,
    description: string,
    status: ProjectStatus,
    dueDate: string,
    members: seq<User>,
    image: Option<string>,
    progress: int)

  /** The blank form shown for a new project. */
  const EmptyDraft: ProjectDraft := ProjectDraft("", "", Active, "", [], Some(""), 0)

  /** The form loaded with a copy of the project being edited. */
  function DraftOf(p: Project): (d: ProjectDraft)
    ensures d.name == p.name && d.description == p.description && d.status == p.status
    ensures d.dueDate == p.dueDate && d.members == p.members && d.image == p.image
    ensures d.progress == p.progress
  {
    ProjectDraft(p.name, p.description, p.status, p.dueDate, p.members, p.image, p.progress)
  }

  predicate HasUserId(members: seq<User>, id: string) {
    id in UserIds(members)
  }

  lemma UserIdsAppend(a: seq<User>, b: seq<User>)
    ensures UserIds(a + b) == UserIds(a) + UserIds(b)
  {
    forall id | id in UserIds(a + b) ensures id in UserIds(a) + UserIds(b) {
      var i :| 0 <= i < |a + b| && (a + b)[i].id == id;
      if i < |a| {
        assert a[i].id == id;
      } else {
        assert b[i - |a|].id == id;
      }
    }
    forall id | id in UserIds(a) + UserIds(b) ensures id in UserIds(a + b) {
      if id in UserIds(a) {
        var i :| 0 <= i < |a| && a[i].id == id;
        assert (a + b)[i].id == id;
      } else {
        var i :| 0 <= i < |b| && b[i].id == id;
        assert (a + b)[|a| + i].id == id;
      }
    }
  }

  /** `members.filter(m => m.id !== id)`. */
  function WithoutId(members: seq<User>, id: string): (r: seq<User>)
    ensures |r| <= |members|
    ensures forall i :: 0 <= i < |r| ==> r[i].id != id
  {
    if |members| == 0 then []
    else (if members[0].id != id then [members[0]] else []) + WithoutId(members[1..], id)
  }

  /** The filter drops every member with the id and keeps every other one, as
      often as it occurs. */
  lemma {:induction false} WithoutIdMultiset(members: seq<User>, id: string, u: User)
    ensures multiset(WithoutId(members, id))[u] == if u.id == id then 0 else multiset(members)[u]
  {
    if |members| > 0 {
      assert members == [members[0]] + members[1..];
      WithoutIdMultiset(members[1..], id, u);
    }
  }

  /** The filter removes exactly the id from the selected ids. */
  lemma {:induction false} WithoutIdIds(members: seq<User>, id: string)
    ensures UserIds(WithoutId(members, id)) == UserIds(members) - {id}
  {
    if |members| > 0 {
      var head := if members[0].id != id then [members[0]] else [];
      assert members == [members[0]] + members[1..];
      UserIdsAppend([members[0]], members[1..]);
      UserIdsAppend(head, WithoutId(members[1..], id));
      WithoutIdIds(members[1..], id);
    }
  }

  /** Without a member carrying the id, the filter changes nothing. */
  lemma {:induction false} WithoutAbsentId(members: seq<User>, id: string)
    requires !HasUserId(members, id)
    ensures WithoutId(members, id) == members
  {
    if |members| > 0 {
      assert members == [members[0]] + members[1..];
      UserIdsAppend([members[0]], members[1..]);
      WithoutAbsentId(members[1..], id);
    }
  }

  lemma {:induction false} WithoutIdAppend(a: seq<User>, b: seq<User>, id: string)
    ensures WithoutId(a + b, id) == WithoutId(a, id) + WithoutId(b, id)
  {
    if |a| > 0 {
      assert (a + b)[1..] == a[1..] + b;
      WithoutIdAppend(a[1..], b, id);
    } else {
      assert a + b == b;
    }
  }

  /** toggleMember's new member list: an id that is not in the directory
      changes nothing; a selected member is removed; an unselected one is
      appended, as the directory lists it. */
  function ToggleMembers(current: seq<User>, allMembers: seq<User>, userId: string): (r: seq<User>)
    ensures !HasUserId(allMembers, userId) ==> r == current
    ensures HasUserId(allMembers, userId) && HasUserId(current, userId) ==> r == WithoutId(current, userId)
    ensures HasUserId(allMembers, userId) && !HasUserId(current, userId) ==>
              |r| == |current| + 1 && r[..|current|] == current
              && r[|current|] == FindUser(allMembers, userId).value
  {
    match FindUser(allMembers, userId)
    case None => current
    case Some(member) =>
      if HasUserId(current, userId) then WithoutId(current, userId) else current + [member]
  }

  /** The toggle flips the id's membership in the selected ids, leaves the
      other ids as they were, and leaves every member with another id counted
      as often as before. */
  lemma ToggleFlipsId(current: seq<User>, allMembers: seq<User>, userId: string, u: User)
    requires HasUserId(allMembers, userId)
    ensures UserIds(ToggleMembers(current, allMembers, userId)) ==
            if HasUserId(current, userId) then UserIds(current) - {userId}
            else UserIds(current) + {userId}
    ensures u.id != userId ==>
              multiset(ToggleMembers(current, allMembers, userId))[u] == multiset(current)[u]
  {
    var r := ToggleMembers(current, allMembers, userId);
    var member := FindUser(allMembers, userId).value;
    if HasUserId(current, userId) {
      WithoutIdMultiset(current, userId, u);
      WithoutIdIds(current, userId);
    } else {
      UserIdsAppend(current, [member]);
      assert member.id == userId;
      assert [member][0] == member;
      assert UserIds([member]) == {userId};
    }
  }

  /** The toggle never introduces a duplicate id. */
  lemma ToggleKeepsDistinct(current: seq<User>, allMembers: seq<User>, userId: string)
    requires DistinctIds(current)
    ensures DistinctIds(ToggleMembers(current, allMembers, userId))
  {
    var r := ToggleMembers(current, allMembers, userId);
    if HasUserId(allMembers, userId) && HasUserId(current, userId) {
      forall i, j | 0 <= i < j < |r| ensures r[i].id != r[j].id {
        if r[i].id == r[j].id {
          SelectionIdsDistinct(current, userId, i, j);
        }
      }
    }
  }

  /** Distinct ids stay distinct in the tail. */
  lemma DistinctIdsTail(members: seq<User>)
    requires |members| > 0 && DistinctIds(members)
    ensures DistinctIds(members[1..])
  {
    forall a, b | 0 <= a < b < |members| - 1 ensures members[1..][a].id != members[1..][b].id {
      assert members[1..][a] == members[a + 1] && members[1..][b] == members[b + 1];
    }
  }

  /** No member kept from the tail shares the head's id. */
  lemma HeadIdNotKept(members: seq<User>, userId: string, u: User)
    requires |members| > 0 && DistinctIds(members)
    requires u in WithoutId(members[1..], userId)
    ensures u.id != members[0].id
  {
    WithoutIdMultiset(members[1..], userId, u);
    var k :| 0 <= k < |members[1..]| && members[1..][k] == u;
    assert members[k + 1] == u;
  }

  /** Two distinct positions of the filtered list come from two distinct
      positions of the original, so ids stay distinct. */
  lemma {:induction false} SelectionIdsDistinct(members: seq<User>, userId: string, i: int, j: int)
    requires DistinctIds(members)
    requires 0 <= i < j < |WithoutId(members, userId)|
    ensures WithoutId(members, userId)[i].id != WithoutId(members, userId)[j].id
  {
    var r := WithoutId(members, userId);
    var rest := WithoutId(members[1..], userId);
    DistinctIdsTail(members);
    if members[0].id != userId {
      assert r == [members[0]] + rest;
      if i == 0 {
        assert r[j] == rest[j - 1];
        HeadIdNotKept(members, userId, r[j]);
      } else {
        SelectionIdsDistinct(members[1..], userId, i - 1, j - 1);
      }
    } else {
      assert r == rest;
      SelectionIdsDistinct(members[1..], userId, i, j);
    }
  }

  /** Toggling the same member twice restores the selected ids; when the
      member was not selected, it restores the list exactly. */
  lemma ToggleTwice(current: seq<User>, allMembers: seq<User>, userId: string)
    ensures UserIds(ToggleMembers(ToggleMembers(current, allMembers, userId), allMembers, userId))
            == UserIds(current)
    ensures !HasUserId(current, userId) ==>
              ToggleMembers(ToggleMembers(current, allMembers, userId), allMembers, userId) == current
  {
    var once := ToggleMembers(current, allMembers, userId);
    if HasUserId(allMembers, userId) {
      var member := FindUser(allMembers, userId).value;
      ToggleFlipsId(current, allMembers, userId, member);
      ToggleFlipsId(once, allMembers, userId, member);
      if !HasUserId(current, userId) {
        WithoutIdAppend(current, [member], userId);
        WithoutAbsentId(current, userId);
        assert WithoutId([member], userId) == [];
      }
    }
  }

  /** handleSubmit's project, or None when the name is empty. The id is the
      edited project's id when it has one, else "p" and the clock; the edited
      project's tasks are kept (a new one starts with none); an empty due date
      becomes the clock's ISO timestamp; every other field is the form's. */
  function SubmitProject(draft: ProjectDraft, editing: Option<Project>, nowMs: nat, nowIso: string)
    : (r: Option<Project>)
    ensures r.None? <==> draft.name == ""
    ensures r.Some? ==> r.value.name == draft.name && r.value.id != ""
    ensures r.Some? && editing.Some? && editing.value.id != "" ==> r.value.id == editing.value.id
    ensures r.Some? && (editing.None? || editing.value.id == "") ==> r.value.id == "p" + NatToString(nowMs)
    ensures r.Some? && editing.Some? ==> r.value.tasks == editing.value.tasks
    ensures r.Some? && editing.None? ==> r.value.tasks == []
    ensures r.Some? ==> r.value.dueDate == if draft.dueDate != "" then draft.dueDate else nowIso
    ensures r.Some? ==> r.value.description == draft.description && r.value.status == draft.status
                        && r.value.progress == draft.progress && r.value.members == draft.members
                        && r.value.image == draft.image
  {
    if draft.name == "" then None
    else
      var id := if editing.Some? && editing.value.id != "" then editing.value.id
                else "p" + NatToString(nowMs);
      var tasks := if editing.Some? then editing.value.tasks else [];
      var dueDate := if draft.dueDate != "" then draft.dueDate else nowIso;
      Some(Project(id, draft.name, draft.description, draft.status, draft.progress,
                   draft.members, tasks, dueDate, draft.image))
  }

  /** Opening a project and saving it untouched gives the same project back. */
  lemma EditRoundTrip(p: Project, nowMs: nat, nowIso: string)
    requires p.name != "" && p.id != "" && p.dueDate != ""
    ensures SubmitProject(DraftOf(p), Some(p), nowMs, nowIso) == Some(p)
  {
  }

  /** A new project named `name` from the blank form: id from the clock, no
      members or tasks, Active, no progress, due at the clock's instant. */
  lemma NewProjectDefaults(name: string, nowMs: nat, nowIso: string)
    requires name != ""
    ensures SubmitProject(EmptyDraft.(name := name), None, nowMs, nowIso) ==
            Some(Project("p" + NatToString(nowMs), name, "", Active, 0, [], [], nowIso, Some("")))
  {
  }

  /** Projects created at different clock readings get different ids. */
  lemma NewProjectIdsDiffer(d1: ProjectDraft, d2: ProjectDraft, t1: nat, t2: nat, iso1: string, iso2: string)
    requires d1.name != "" && d2.name != "" && t1 != t2
    ensures SubmitProject(d1, None, t1, iso1).value.id != SubmitProject(d2, None, t2, iso2).value.id
  {
    NatToStringInjective(t1, t2);
    assert SubmitProject(d1, None, t1, iso1).value.id[1..] == NatToString(t1);
    assert SubmitProject(d2, None, t2, iso2).value.id[1..] == NatToString(t2);
  }

  /** The callbacks the dialog invokes, in order. */
  datatype Event = Save(project: Project) | Close | Delete(projectId: string)

  class ProjectModal {
    var formData: ProjectDraft

    constructor ()
      ensures formData == EmptyDraft
    {
      formData := EmptyDraft;
    }

    /** The open effect: load a copy of the edited project, or the blank form. */
    method Open(editing: Option<Project>)
      modifies this
      ensures formData == if editing.Some? then DraftOf(editing.value) else EmptyDraft
    {
      if editing.Some? {
        formData := DraftOf(editing.value);
      } else {
        formData := EmptyDraft;
      }
    }

    /** handleImageChange, with the file already read as a data URL. */
    method SetImage(dataUrl: string)
      modifies this
      ensures formData == old(formData).(image := Some(dataUrl))
    {
      formData := formData.(image := Some(dataUrl));
    }

    /** toggleMember. */
    method ToggleMember(allMembers: seq<User>, userId: string)
      modifies this
      ensures formData == old(formData).(members := ToggleMembers(old(formData.members), allMembers, userId))
    {
      var member := FindUser(allMembers, userId);
      if member.None? {
        return;
      }
      var current := formData.members;
      if HasUserId(current, userId) {
        formData := formData.(members := WithoutId(current, userId));
      } else {
        formData := formData.(members := current + [member.value]);
      }
    }

    /** handleSubmit: nothing happens for an empty name; otherwise the project
        is saved and then the dialog closes. The form itself is not changed. */
    method Submit(editing: Option<Project>, nowMs: nat, nowIso: string) returns (events: seq<Event>)
      ensures formData.name == "" ==> events == []
      ensures formData.name != "" ==>
                events == [Save(SubmitProject(formData, editing, nowMs, nowIso).value), Close]
    {
      var project := SubmitProject(formData, editing, nowMs, nowIso);
      if project.None? {
        return [];
      }
      events := [Save(project.value), Close];
    }

    /** The delete button, shown only while a project is being edited: it
        asks the shell to delete that project. */
    method RequestDelete(editing: Option<Project>) returns (events: seq<Event>)
      ensures editing.None? ==> events == []
      ensures editing.Some? ==> events == [Delete(editing.value.id)]
    {
      events := [];
      if editing.Some? {
        events := [Delete(editing.value.id)];
      }
    }
  }
}
