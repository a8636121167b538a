/** The application shell (App.tsx): authentication, the project collection
    with its filter-then-sort listing, project save and delete, task
    assignment, the team roster, and the aggregated "My Tasks" list. */
module Dashboard {
  import opened Types
  import opened Text
  import AssignTaskForm
  import EmployeeForm

  /** The demo accounts the login picks from (constants.ts lines 3-29). */
  const CurrentUser: User := User(
    "u1", "Alex Morgan", "alex.morgan@nexus.com", USER,
    "https://images.unsplash.com/photo-1535713875002-d1d0cf377fde?auto=format&fit=crop&w=150&q=80",
    Male, "2023-01-15", 3, Some("1995-05-20"), Some("4 years"), Some("Senior Frontend Dev"))

  const AdminUser: User := User(
    "a1", "Sarah Connor", "sarah.c@nexus.com", ADMIN,
    "https://images.unsplash.com/photo-1494790108377-be9c29b29330?auto=format&fit=crop&w=150&q=80",
    Female, "2022-11-01", 12, Some("1988-08-15"), Some("8 years"), Some("Product Manager"))

  // ---------------------------------------------------------------------
  // The listing pipeline (getProcessedProjects)
  // ---------------------------------------------------------------------

  /** A project passes the status filter `'All'`, or the filter naming its status. */
  predicate PassesFilter(filter: string, p: Project) {
    filter == "All" || ProjectStatusLabel(p.status) == filter
  }

  /** The filter step: `'All'` keeps the list, anything else keeps the projects
      whose status equals it, in their original order. */
  function FilterProjects(projects: seq<Project>, filter: string): (r: seq<Project>)
    ensures |r| <= |projects|
    ensures filter == "All" ==> r == projects
    ensures forall i :: 0 <= i < |r| ==> PassesFilter(filter, r[i])
  {
    if |projects| == 0 then []
    else (if PassesFilter(filter, projects[0]) then [projects[0]] else [])
         + FilterProjects(projects[1..], filter)
  }

  /** The filter keeps every passing project, as often as it occurs, and no other. */
  lemma {:induction false} FilterProjectsMultiset(projects: seq<Project>, filter: string, p: Project)
    ensures multiset(FilterProjects(projects, filter))[p] ==
            if PassesFilter(filter, p) then multiset(projects)[p] else 0
  {
    if |projects| > 0 {
      assert projects == [projects[0]] + projects[1..];
      FilterProjectsMultiset(projects[1..], filter, p);
    }
  }

  /** The filter works piecewise, so the kept projects keep their order. */
  lemma {:induction false} FilterProjectsAppend(a: seq<Project>, b: seq<Project>, filter: string)
    ensures FilterProjects(a + b, filter) == FilterProjects(a, filter) + FilterProjects(b, filter)
  {
    if |a| > 0 {
      assert (a + b)[1..] == a[1..] + b;
      FilterProjectsAppend(a[1..], b, filter);
    } else {
      assert a + b == b;
    }
  }

  /** `a.localeCompare(b) <= 0`, with collation taken as character order. */
  predicate NameLe(a: string, b: string) {
    |a| == 0 || (|b| > 0 && (a[0] < b[0] || (a[0] == b[0] && NameLe(a[1..], b[1..]))))
  }

  lemma {:induction false} NameLeReflexive(a: string)
    ensures NameLe(a, a)
  {
    if |a| > 0 {
      NameLeReflexive(a[1..]);
    }
  }

  lemma {:induction false} NameLeTotal(a: string, b: string)
    ensures NameLe(a, b) || NameLe(b, a)
  {
    if |a| > 0 && |b| > 0 && a[0] == b[0] {
      NameLeTotal(a[1..], b[1..]);
    }
  }

  lemma {:induction false} NameLeTransitive(a: string, b: string, c: string)
    requires NameLe(a, b) && NameLe(b, c)
    ensures NameLe(a, c)
  {
    if |a| > 0 && |b| > 0 && |c| > 0 && a[0] == b[0] == c[0] {
      NameLeTransitive(a[1..], b[1..], c[1..]);
    }
  }

  /** The sort comparator, read as "a may stay before b" (compare(a, b) <= 0):
      by name, by due instant (`timeOf` stands for `new Date(d).getTime()`),
      and for any other key every pair compares equal. */
  predicate Precedes(sortKey: string, timeOf: string -> int, a: Project, b: Project)
    ensures a.name == b.name && a.dueDate == b.dueDate ==> Precedes(sortKey, timeOf, a, b)
  {
    NameLeReflexive(a.name);
    if sortKey == "name" then NameLe(a.name, b.name)
    else if sortKey == "dueDate" then timeOf(a.dueDate) <= timeOf(b.dueDate)
    else true
  }

  lemma PrecedesTotal(sortKey: string, timeOf: string -> int, a: Project, b: Project)
    ensures Precedes(sortKey, timeOf, a, b) || Precedes(sortKey, timeOf, b, a)
  {
    if sortKey == "name" {
      NameLeTotal(a.name, b.name);
    }
  }

  lemma PrecedesTransitive(sortKey: string, timeOf: string -> int, a: Project, b: Project, c: Project)
    requires Precedes(sortKey, timeOf, a, b) && Precedes(sortKey, timeOf, b, c)
    ensures Precedes(sortKey, timeOf, a, c)
  {
    if sortKey == "name" {
      NameLeTransitive(a.name, b.name, c.name);
    }
  }

  predicate Sorted(sortKey: string, timeOf: string -> int, s: seq<Project>) {
    forall i, j :: 0 <= i < j < |s| ==> Precedes(sortKey, timeOf, s[i], s[j])
  }

  /** Places `x` in front of the first element it may precede. */
  function Insert(sortKey: string, timeOf: string -> int, x: Project, s: seq<Project>): (r: seq<Project>)
    ensures |r| == |s| + 1
    ensures multiset(r) == multiset(s) + multiset{x}
  {
    if |s| == 0 || Precedes(sortKey, timeOf, x, s[0]) then [x] + s
    else
      assert s == [s[0]] + s[1..];
      [s[0]] + Insert(sortKey, timeOf, x, s[1..])
  }

  /** `Array.prototype.sort` with the comparator above: a stable sort. */
  function SortProjects(sortKey: string, timeOf: string -> int, s: seq<Project>): (r: seq<Project>)
    ensures |r| == |s|
    ensures multiset(r) == multiset(s)
  {
    if |s| == 0 then []
    else
      assert s == [s[0]] + s[1..];
      Insert(sortKey, timeOf, s[0], SortProjects(sortKey, timeOf, s[1..]))
  }

  lemma {:induction false} InsertSorted(sortKey: string, timeOf: string -> int, x: Project, s: seq<Project>)
    requires Sorted(sortKey, timeOf, s)
    ensures Sorted(sortKey, timeOf, Insert(sortKey, timeOf, x, s))
  {
    var r := Insert(sortKey, timeOf, x, s);
    if |s| == 0 {
    } else if Precedes(sortKey, timeOf, x, s[0]) {
      forall j | 1 <= j < |r| ensures Precedes(sortKey, timeOf, x, r[j]) {
        if j > 1 {
          PrecedesTransitive(sortKey, timeOf, x, s[0], s[j - 1]);
        }
      }
    } else {
      PrecedesTotal(sortKey, timeOf, x, s[0]);
      var rest := Insert(sortKey, timeOf, x, s[1..]);
      InsertSorted(sortKey, timeOf, x, s[1..]);
      forall j | 0 <= j < |rest| ensures Precedes(sortKey, timeOf, s[0], rest[j]) {
        assert rest[j] in multiset(rest);
        if rest[j] != x {
          assert rest[j] in multiset(s[1..]);
          var k :| 0 <= k < |s[1..]| && s[1..][k] == rest[j];
          assert s[k + 1] == rest[j];
        }
      }
      assert r == [s[0]] + rest;
    }
  }

  /** The sort orders its output by the comparator. */
  lemma {:induction false} SortSorted(sortKey: string, timeOf: string -> int, s: seq<Project>)
    ensures Sorted(sortKey, timeOf, SortProjects(sortKey, timeOf, s))
  {
    if |s| > 0 {
      SortSorted(sortKey, timeOf, s[1..]);
      InsertSorted(sortKey, timeOf, s[0], SortProjects(sortKey, timeOf, s[1..]));
    }
  }

  /** `a` and `b` compare equal under the comparator. */
  predicate Tied(sortKey: string, timeOf: string -> int, a: Project, b: Project) {
    Precedes(sortKey, timeOf, a, b) && Precedes(sortKey, timeOf, b, a)
  }

  /** The projects of `s` that tie with `q`, in their order in `s`. */
  function TiesWith(sortKey: string, timeOf: string -> int, s: seq<Project>, q: Project): seq<Project> {
    if |s| == 0 then []
    else (if Tied(sortKey, timeOf, s[0], q) then [s[0]] else []) + TiesWith(sortKey, timeOf, s[1..], q)
  }

  lemma TiesWithCons(sortKey: string, timeOf: string -> int, a: Project, t: seq<Project>, q: Project)
    ensures TiesWith(sortKey, timeOf, [a] + t, q) ==
            (if Tied(sortKey, timeOf, a, q) then [a] else []) + TiesWith(sortKey, timeOf, t, q)
  {
    assert ([a] + t)[1..] == t;
  }

  lemma {:induction false} InsertKeepsTies(sortKey: string, timeOf: string -> int, x: Project,
                                           s: seq<Project>, q: Project)
    ensures TiesWith(sortKey, timeOf, Insert(sortKey, timeOf, x, s), q) ==
            (if Tied(sortKey, timeOf, x, q) then [x] else []) + TiesWith(sortKey, timeOf, s, q)
  {
    if |s| == 0 || Precedes(sortKey, timeOf, x, s[0]) {
      TiesWithCons(sortKey, timeOf, x, s, q);
    } else {
      var rest := Insert(sortKey, timeOf, x, s[1..]);
      InsertKeepsTies(sortKey, timeOf, x, s[1..], q);
      TiesWithCons(sortKey, timeOf, s[0], rest, q);
      TiesWithCons(sortKey, timeOf, s[0], s[1..], q);
      assert s == [s[0]] + s[1..];
      if Tied(sortKey, timeOf, x, q) {
        // x would precede s[0] if s[0] tied with q as well
        if Tied(sortKey, timeOf, s[0], q) {
          PrecedesTransitive(sortKey, timeOf, x, q, s[0]);
        }
      }
    }
  }

  /** Stability: projects that compare equal keep their relative order. */
  lemma {:induction false} SortStable(sortKey: string, timeOf: string -> int, s: seq<Project>, q: Project)
    ensures TiesWith(sortKey, timeOf, SortProjects(sortKey, timeOf, s), q) == TiesWith(sortKey, timeOf, s, q)
  {
    if |s| > 0 {
      SortStable(sortKey, timeOf, s[1..], q);
      InsertKeepsTies(sortKey, timeOf, s[0], SortProjects(sortKey, timeOf, s[1..]), q);
    }
  }

  /** A sort key other than 'name' and 'dueDate' leaves the order as it was. */
  lemma {:induction false} UnknownKeyKeepsOrder(sortKey: string, timeOf: string -> int, s: seq<Project>)
    requires sortKey != "name" && sortKey != "dueDate"
    ensures SortProjects(sortKey, timeOf, s) == s
  {
    if |s| > 0 {
      UnknownKeyKeepsOrder(sortKey, timeOf, s[1..]);
      assert s == [s[0]] + s[1..];
    }
  }

  /** getProcessedProjects: filter, then sort a copy. */
  function ProcessedProjects(projects: seq<Project>, filter: string, sortKey: string,
                             timeOf: string -> int): (r: seq<Project>)
    ensures |r| <= |projects|
    ensures multiset(r) == multiset(FilterProjects(projects, filter))
    ensures filter == "All" ==> multiset(r) == multiset(projects)
  {
    SortProjects(sortKey, timeOf, FilterProjects(projects, filter))
  }

  /** The listing holds exactly the projects passing the filter, each as often
      as in the collection, ordered by the sort key, stable on ties. */
  lemma ProcessedProjectsSpec(projects: seq<Project>, filter: string, sortKey: string,
                              timeOf: string -> int, p: Project)
    ensures multiset(ProcessedProjects(projects, filter, sortKey, timeOf))[p] ==
            if PassesFilter(filter, p) then multiset(projects)[p] else 0
    ensures forall i :: 0 <= i < |ProcessedProjects(projects, filter, sortKey, timeOf)| ==>
              PassesFilter(filter, ProcessedProjects(projects, filter, sortKey, timeOf)[i])
    ensures Sorted(sortKey, timeOf, ProcessedProjects(projects, filter, sortKey, timeOf))
    ensures TiesWith(sortKey, timeOf, ProcessedProjects(projects, filter, sortKey, timeOf), p) ==
            TiesWith(sortKey, timeOf, FilterProjects(projects, filter), p)
    ensures sortKey != "name" && sortKey != "dueDate" ==>
              ProcessedProjects(projects, filter, sortKey, timeOf) == FilterProjects(projects, filter)
  {
    var f := FilterProjects(projects, filter);
    var r := ProcessedProjects(projects, filter, sortKey, timeOf);
    FilterProjectsMultiset(projects, filter, p);
    SortSorted(sortKey, timeOf, f);
    SortStable(sortKey, timeOf, f, p);
    forall i | 0 <= i < |r| ensures PassesFilter(filter, r[i]) {
      assert r[i] in multiset(f);
      var k :| 0 <= k < |f| && f[k] == r[i];
    }
    if sortKey != "name" && sortKey != "dueDate" {
      UnknownKeyKeepsOrder(sortKey, timeOf, f);
    }
  }

  // ---------------------------------------------------------------------
  // Project and roster updates
  // ---------------------------------------------------------------------

  predicate HasProjectId(projects: seq<Project>, id: string) {
    exists i :: 0 <= i < |projects| && projects[i].id == id
  }

  /** handleSaveProject's new list: an existing id is replaced in place (every
      project with it), a new id is appended. */
  function Upsert(projects: seq<Project>, p: Project): (r: seq<Project>)
    ensures HasProjectId(projects, p.id) ==>
              |r| == |projects|
              && forall i :: 0 <= i < |r| ==> r[i] == if projects[i].id == p.id then p else projects[i]
    ensures !HasProjectId(projects, p.id) ==> r == projects + [p]
  {
    if HasProjectId(projects, p.id) then
      seq(|projects|, i requires 0 <= i < |projects| => if projects[i].id == p.id then p else projects[i])
    else projects + [p]
  }

  /** After a save, the saved project is in the list and is the only project
      with its id; saving it again changes nothing. */
  lemma UpsertStoresProject(projects: seq<Project>, p: Project)
    ensures p in Upsert(projects, p)
    ensures forall q :: q in Upsert(projects, p) && q.id == p.id ==> q == p
    ensures Upsert(Upsert(projects, p), p) == Upsert(projects, p)
  {
    var r := Upsert(projects, p);
    if HasProjectId(projects, p.id) {
      var k :| 0 <= k < |projects| && projects[k].id == p.id;
      assert r[k] == p;
    } else {
      assert r[|projects|] == p;
    }
    assert HasProjectId(r, p.id);
  }

  /** `projects.filter(p => p.id !== id)`. */
  function RemoveById(projects: seq<Project>, id: string): (r: seq<Project>)
    ensures |r| <= |projects|
    ensures forall i :: 0 <= i < |r| ==> r[i].id != id
  {
    if |projects| == 0 then []
    else (if projects[0].id != id then [projects[0]] else []) + RemoveById(projects[1..], id)
  }

  /** Deleting keeps every other project, as often as it occurs. */
  lemma {:induction false} RemoveByIdMultiset(projects: seq<Project>, id: string, q: Project)
    ensures multiset(RemoveById(projects, id))[q] == if q.id == id then 0 else multiset(projects)[q]
  {
    if |projects| > 0 {
      assert projects == [projects[0]] + projects[1..];
      RemoveByIdMultiset(projects[1..], id, q);
    }
  }

  /** Deleting works piecewise, so the survivors keep their order. */
  lemma {:induction false} RemoveByIdAppend(a: seq<Project>, b: seq<Project>, id: string)
    ensures RemoveById(a + b, id) == RemoveById(a, id) + RemoveById(b, id)
  {
    if |a| > 0 {
      assert (a + b)[1..] == a[1..] + b;
      RemoveByIdAppend(a[1..], b, id);
    } else {
      assert a + b == b;
    }
  }

  /** Deleting a project that was just saved leaves what deleting it before the
      save would have left. */
  lemma {:induction false} RemoveAfterUpsert(projects: seq<Project>, p: Project)
    ensures RemoveById(Upsert(projects, p), p.id) == RemoveById(projects, p.id)
  {
    if HasProjectId(projects, p.id) {
      ReplacedRemoved(projects, p);
    } else {
      RemoveByIdAppend(projects, [p], p.id);
      assert RemoveById([p], p.id) == [];
    }
  }

  lemma {:induction false} ReplacedRemoved(projects: seq<Project>, p: Project)
    ensures RemoveById(seq(|projects|, i requires 0 <= i < |projects| =>
                             if projects[i].id == p.id then p else projects[i]), p.id)
            == RemoveById(projects, p.id)
  {
    var m := seq(|projects|, i requires 0 <= i < |projects| =>
                   if projects[i].id == p.id then p else projects[i]);
    if |projects| > 0 {
      var tail := seq(|projects[1..]|, i requires 0 <= i < |projects[1..]| =>
                        if projects[1..][i].id == p.id then p else projects[1..][i]);
      assert m[1..] == tail;
      ReplacedRemoved(projects[1..], p);
    }
  }

  /** handleAssignTask's new list: the task goes to the end of the first
      project's tasks; without projects nothing changes. */
  function AssignToFirst(projects: seq<Project>, t: Task): (r: seq<Project>)
    ensures |r| == |projects|
    ensures |projects| == 0 ==> r == projects
    ensures |projects| > 0 ==> r[0] == projects[0].(tasks := projects[0].tasks + [t])
                               && r[1..] == projects[1..]
  {
    if |projects| == 0 then projects
    else [projects[0].(tasks := projects[0].tasks + [t])] + projects[1..]
  }

  /** `projects.flatMap(p => p.tasks)`: every task of every project, project by project. */
  function AllTasks(projects: seq<Project>): (r: seq<Task>)
    ensures |projects| == 0 ==> r == []
    ensures |projects| == 1 ==> r == projects[0].tasks
    ensures forall i :: 0 <= i < |projects| ==> |projects[i].tasks| <= |r|
  {
    if |projects| == 0 then [] else projects[0].tasks + AllTasks(projects[1..])
  }

  /** Flattening works piecewise: the tasks of `a + b` are those of `a`
      followed by those of `b`. With the single-project case above this fixes
      the order and multiplicity of every task in the aggregated list. */
  lemma {:induction false} AllTasksAppend(a: seq<Project>, b: seq<Project>)
    ensures AllTasks(a + b) == AllTasks(a) + AllTasks(b)
  {
    if |a| > 0 {
      assert (a + b)[1..] == a[1..] + b;
      AllTasksAppend(a[1..], b);
    } else {
      assert a + b == b;
    }
  }

  /** A task is listed exactly when some project owns it. */
  lemma {:induction false} AllTasksMembership(projects: seq<Project>, t: Task)
    ensures t in AllTasks(projects) <==> exists i :: 0 <= i < |projects| && t in projects[i].tasks
  {
    if |projects| > 0 {
      AllTasksMembership(projects[1..], t);
      if t in AllTasks(projects[1..]) {
        var i :| 0 <= i < |projects[1..]| && t in projects[1..][i].tasks;
        assert t in projects[i + 1].tasks;
      }
      if exists i :: 0 <= i < |projects| && t in projects[i].tasks {
        var i :| 0 <= i < |projects| && t in projects[i].tasks;
        if i > 0 {
          assert t in projects[1..][i - 1].tasks;
        }
      }
    }
  }

  /** Assigning a task adds exactly that task to the aggregated list. */
  lemma AssignAddsOneTask(projects: seq<Project>, t: Task)
    requires |projects| > 0
    ensures multiset(AllTasks(AssignToFirst(projects, t))) == multiset(AllTasks(projects)) + multiset{t}
  {
    var r := AssignToFirst(projects, t);
    assert AllTasks(r) == (projects[0].tasks + [t]) + AllTasks(projects[1..]);
  }

  /** The task handleAssignTask builds from a form payload at clock `nowMs`. */
  function NewTask(payload: AssignTaskForm.TaskPayload, nowMs: nat): (t: Task)
    ensures t.id == NatToString(nowMs)
    ensures t.title == payload.title && t.description == payload.description
    ensures t.status == payload.status && t.priority == payload.priority
    ensures t.assignee == payload.assignee && t.dueDate == payload.dueDate && t.image == payload.image
  {
    Task(NatToString(nowMs), payload.title, payload.description, payload.status,
         payload.priority, payload.assignee, payload.dueDate, payload.image)
  }

  /** The user handleAddEmployee builds: id "u" followed by the clock, then
      the payload's fields. */
  function NewEmployee(payload: EmployeeForm.EmployeePayload, nowMs: nat): (u: User)
    ensures u.id == "u" + NatToString(nowMs)
    ensures u.name == payload.name && u.email == payload.email && u.role == payload.role
    ensures u.avatar == payload.avatar && u.gender == payload.gender
    ensures u.joinedDate == payload.joinedDate && u.projectsJoined == payload.projectsJoined
    ensures u.dob == Some(payload.dob) && u.experience == Some(payload.experience)
    ensures u.jobTitle == Some(payload.jobTitle)
  {
    User("u" + NatToString(nowMs), payload.name, payload.email, payload.role, payload.avatar,
         payload.gender, payload.joinedDate, payload.projectsJoined, Some(payload.dob),
         Some(payload.experience), Some(payload.jobTitle))
  }

  /** Employees added at different clock readings get different ids. */
  lemma EmployeeIdsDiffer(a: EmployeeForm.EmployeePayload, b: EmployeeForm.EmployeePayload,
                          t1: nat, t2: nat)
    requires t1 != t2
    ensures NewEmployee(a, t1).id != NewEmployee(b, t2).id
  {
    NatToStringInjective(t1, t2);
    assert NewEmployee(a, t1).id[1..] == NatToString(t1);
    assert NewEmployee(b, t2).id[1..] == NatToString(t2);
  }

  /** handleLogin's account: the admin demo account for ADMIN, the regular one
      otherwise, under the email that was typed. */
  function LoginUser(role: UserRole, email: string): (u: User)
    ensures u.email == email && u.role == role
    ensures u == (if role == ADMIN then AdminUser else CurrentUser).(email := email)
  {
    assert AdminUser.role == ADMIN && CurrentUser.role == USER;
    if role == ADMIN then AdminUser.(email := email) else CurrentUser.(email := email)
  }

  class App {
    var isAuthenticated: bool
    var currentUser: User
    var activeTab: string
    var isProjectModalOpen: bool
    var editingProject: Option<Project>
    var projects: seq<Project>
    var teamMembers: seq<User>
    var projectFilter: string
    var projectSort: string

    /** The initial state, with the seed projects and roster as inputs. */
    constructor (seedProjects: seq<Project>, seedMembers: seq<User>)
      ensures !isAuthenticated && currentUser == CurrentUser && activeTab == "dashboard"
      ensures !isProjectModalOpen && editingProject == None
      ensures projects == seedProjects && teamMembers == seedMembers
      ensures projectFilter == "All" && projectSort == "dueDate"
    {
      isAuthenticated := false;
      currentUser := CurrentUser;
      activeTab := "dashboard";
      isProjectModalOpen := false;
      editingProject := None;
      projects := seedProjects;
      teamMembers := seedMembers;
      projectFilter := "All";
      projectSort := "dueDate";
    }

    method Login(role: UserRole, email: string)
      modifies this`currentUser, this`isAuthenticated, this`activeTab
      ensures currentUser == LoginUser(role, email)
      ensures isAuthenticated && activeTab == "dashboard"
    {
      if role == ADMIN {
        currentUser := AdminUser.(email := email);
      } else {
        currentUser := CurrentUser.(email := email);
      }
      isAuthenticated := true;
      activeTab := "dashboard";
    }

    method Logout()
      modifies this`isAuthenticated, this`activeTab
      ensures !isAuthenticated && activeTab == "dashboard"
    {
      isAuthenticated := false;
      activeTab := "dashboard";
    }

    method SetFilter(filter: string)
      modifies this`projectFilter
      ensures projectFilter == filter
    {
      projectFilter := filter;
    }

    method SetSort(sortKey: string)
      modifies this`projectSort
      ensures projectSort == sortKey
    {
      projectSort := sortKey;
    }

    /** handleAssignTask, with the clock as input. */
    method AssignTask(payload: AssignTaskForm.TaskPayload, nowMs: nat)
      modifies this`projects
      ensures projects == AssignToFirst(old(projects), NewTask(payload, nowMs))
    {
      var newTask := NewTask(payload, nowMs);
      if |projects| > 0 {
        projects := [projects[0].(tasks := projects[0].tasks + [newTask])] + projects[1..];
      }
    }

    /** handleAddEmployee: the new member goes to the end of the roster. */
    method AddEmployee(payload: EmployeeForm.EmployeePayload, nowMs: nat)
      modifies this`teamMembers
      ensures teamMembers == old(teamMembers) + [NewEmployee(payload, nowMs)]
    {
      teamMembers := teamMembers + [NewEmployee(payload, nowMs)];
    }

    /** handleSaveProject: upsert by id, and the editor forgets the project. */
    method SaveProject(p: Project)
      modifies this`projects, this`editingProject
      ensures projects == Upsert(old(projects), p)
      ensures editingProject == None
    {
      var current := projects;
      if HasProjectId(current, p.id) {
        projects := seq(|current|, i requires 0 <= i < |current| =>
                          if current[i].id == p.id then p else current[i]);
      } else {
        projects := current + [p];
      }
      editingProject := None;
    }

    /** handleDeleteProject, with the operator's answer to `confirm` as input:
        declining changes nothing. */
    method DeleteProject(id: string, confirmed: bool)
      modifies this`projects, this`isProjectModalOpen, this`editingProject
      ensures confirmed ==> projects == RemoveById(old(projects), id)
                            && !isProjectModalOpen && editingProject == None
      ensures !confirmed ==> projects == old(projects) && isProjectModalOpen == old(isProjectModalOpen)
                             && editingProject == old(editingProject)
    {
      if confirmed {
        projects := RemoveById(projects, id);
        isProjectModalOpen := false;
        editingProject := None;
      }
    }

    /** openEditProject. */
    method OpenEditProject(p: Project)
      modifies this`editingProject, this`isProjectModalOpen
      ensures editingProject == Some(p) && isProjectModalOpen
    {
      editingProject := Some(p);
      isProjectModalOpen := true;
    }

    /** The "New" button: the editor opens with no project to edit. */
    method OpenNewProject()
      modifies this`editingProject, this`isProjectModalOpen
      ensures editingProject == None && isProjectModalOpen
    {
      editingProject := None;
      isProjectModalOpen := true;
    }

    /** The project editor's onClose. */
    method CloseProjectModal()
      modifies this`editingProject, this`isProjectModalOpen
      ensures editingProject == None && !isProjectModalOpen
    {
      isProjectModalOpen := false;
      editingProject := None;
    }
  }
}
