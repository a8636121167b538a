/** The records and enumerations of the dashboard (types.ts), and the
    find-by-id lookup that several components perform on member lists. */
module Types {

  datatype Option<T> = None | Some(value: T)

  /** The two account roles (types.ts lines 1-4). */
  datatype UserRole = ADMIN | USER

  /** The four workflow statuses of a task, in declaration order (types.ts lines 6-11). */
  datatype TaskStatus = TODO | IN_PROGRESS | REVIEW | DONE

  /** Task priorities (types.ts lines 13-17). */
  datatype Priority = LOW | MEDIUM | HIGH

  datatype Gender = Male | Female | Other | PreferNotToSay

  /** A project's status is one of three string literals (types.ts line 50). */
  datatype ProjectStatus = Active | Completed | OnHold

  /** A chat channel is 'team' or 'admin' (types.ts line 64). */
  datatype Channel = TeamChannel | AdminChannel

  datatype User = User(
    id: string,
    name: string,
    email: string,
    role: UserRole,
    avatar: string,
    gender: Gender,
    joinedDate: string,
    projectsJoined: int,
    dob: Option<string>,
    experience: Option<string>,
    jobTitle: Option<string>)

  /** `assignee` and `image` are optional; `status`, `priority` and `dueDate` are not. */
  datatype Task = Task(
    id: string,
    title: string,
    description: string,
    status: TaskStatus,
    priority: Priority,
    assignee: Option<User>,
    dueDate: string,
    image: Option<string>)

  datatype Project = Project(
    id: string,
    name: string,
    description: string,
    status: ProjectStatus,
    progress: int,
    members: seq<User>,
    tasks: seq<Task>,
    dueDate: string,
    image: Option<string>)

  /** `timestamp` is a `Date`, kept as milliseconds; `isAi` and `channel` are optional. */
  datatype ChatMessage = ChatMessage(
    id: string,
    senderId: string,
    text: string,
    timestamp: int,
    isAi: Option<bool>,
    channel: Option<Channel>)

  /** The string value of each TaskStatus member. */
  function StatusLabel(s: TaskStatus): string {
    match s
    case TODO => "To Do"
    case IN_PROGRESS => "In Progress"
    case REVIEW => "Review"
    case DONE => "Done"
  }

  /** The string value of each ProjectStatus literal. */
  function ProjectStatusLabel(s: ProjectStatus): string {
    match s
    case Active => "Active"
    case Completed => "Completed"
    case OnHold => "On Hold"
  }

  /** `Object.values(TaskStatus)`: the board's columns, in declaration order,
      each status exactly once. */
  function Columns(): (cols: seq<TaskStatus>)
    ensures |cols| == 4
    ensures forall s: TaskStatus :: s in cols
    ensures forall i, j :: 0 <= i < j < |cols| ==> cols[i] != cols[j]
    ensures forall s: TaskStatus :: cols[ColumnIndex(s)] == s
  {
    var cols := [TODO, IN_PROGRESS, REVIEW, DONE];
    assert forall s: TaskStatus :: s in cols by {
      forall s: TaskStatus ensures s in cols {
        assert cols[ColumnIndex(s)] == s;
      }
    }
    cols
  }

  /** The position of a status's column on the board. */
  function ColumnIndex(s: TaskStatus): (i: nat)
    ensures i < 4
  {
    match s
    case TODO => 0
    case IN_PROGRESS => 1
    case REVIEW => 2
    case DONE => 3
  }

  /** Distinct statuses carry distinct labels, so comparing labels is comparing statuses. */
  lemma StatusLabelsDistinct(a: TaskStatus, b: TaskStatus)
    ensures StatusLabel(a) == StatusLabel(b) <==> a == b
  {
  }

  lemma ProjectStatusLabelsDistinct(a: ProjectStatus, b: ProjectStatus)
    ensures ProjectStatusLabel(a) == ProjectStatusLabel(b) <==> a == b
  {
  }

  /** `members.find(m => m.id === id)`: the first member with that id, if any. */
  function FindUser(members: seq<User>, id: string): (r: Option<User>)
    ensures r.None? <==> forall i :: 0 <= i < |members| ==> members[i].id != id
    ensures r.Some? ==> exists k :: 0 <= k < |members| && members[k] == r.value
                          && r.value.id == id
                          && forall j :: 0 <= j < k ==> members[j].id != id
  {
    if |members| == 0 then None
    else if members[0].id == id then Some(members[0])
    else
      var r := FindUser(members[1..], id);
      assert r.Some? ==> exists k :: 0 <= k < |members[1..]| && members[1..][k] == r.value
                          && r.value.id == id
                          && forall j :: 0 <= j < k ==> members[1..][j].id != id;
      assert r.Some? ==> members[0].id != id;
      r
  }

  /** The set of ids in a member list. */
  function UserIds(members: seq<User>): (ids: set<string>)
    ensures forall i :: 0 <= i < |members| ==> members[i].id in ids
    ensures forall id :: id in ids ==> exists i :: 0 <= i < |members| && members[i].id == id
  {
    set i | 0 <= i < |members| :: members[i].id
  }

  /** No two members share an id. */
  predicate DistinctIds(members: seq<User>) {
    forall i, j :: 0 <= i < j < |members| ==> members[i].id != members[j].id
  }
}
