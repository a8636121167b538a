# Employeer dashboard — a verified Dafny model

This project models the core of the Employeer team dashboard, a React and
TypeScript single-page application. The modelled parts are:

- the application shell (`App.tsx`): login and logout, the project collection,
  its filter-then-sort listing, saving and deleting projects, assigning a task
  to the first project, adding employees, and the aggregated task list;
- the Kanban board (`components/TaskBoard.tsx`): drag and drop between the
  four status columns, re-dating, quick add, and AI-assisted add;
- the project editor (`components/ProjectModal.tsx`): loading the form,
  toggling members, and building the saved project;
- the task-assignment form (`AdminTaskModal.tsx`) and the employee form
  (`AddEmployeeModal.tsx`): the payloads they emit and how they reset;
- the two chat panels: `components/TeamChat.tsx`, with the assistant and a
  random teammate reply, and the two-channel `TeamChat.tsx`, with the
  assistant and the administrator's automatic acknowledgement;
- the live productivity chart (`components/StatsChart.tsx`), a six-point
  window of hourly points that slides once per tick;
- the record types of `types.ts`.

There is one Dafny module per source file, plus `Text`, which holds the
JavaScript string operations the code relies on. These are `toString` of a
clock reading, `parseInt`, `split(c)[0]`, `toLowerCase`, `includes` and
`trim`.

React state is modelled as classes. Each component that holds `useState`
fields becomes a class with those fields. Each handler becomes a method that
`modifies` exactly the fields it sets and states the whole new state. The new
state is given as a pure function of the old one, and the properties of those
functions are proved as lemmas. Callbacks handed to a parent (`onSave`,
`onClose`, `onAssign`, `onAdd`) are returned as a sequence of events, in the
order they are invoked.

An `await` splits a handler into two methods: the part before the await and
the part that runs when the result arrives. A `setTimeout` becomes a later
method call that delivers the reply. The clock (`Date.now()`, the ISO form of
`new Date()`), `Math.random()`, the answers to `prompt` and `confirm`, and
the AI service's text are all inputs.

The tasks view aggregates the tasks of every project (`projects.flatMap`, App.tsx:317).
The comment above it speaks of the first two projects, but the model follows the code.

## Model

| member | source | states |
|---|---|---|
| Types.Columns | components/TaskBoard.tsx:126 | The board has four columns in declaration order (To Do, In Progress, Review, Done), and each status appears exactly once. |
| Types.StatusLabelsDistinct | types.ts:6-11 | Two task statuses have the same string value only if they are the same status. |
| Types.ProjectStatusLabelsDistinct | types.ts:50 | Two project statuses have the same string value only if they are the same status. |
| Types.FindUser | components/ProjectModal.tsx:67 | `find` by id gives None exactly when no member has the id; otherwise it gives the first member with that id. |
| Types.UserIds | components/ProjectModal.tsx:71 | The set of ids holds every member's id and nothing else. |
| Text.NatToString | components/TaskBoard.tsx:63 | A clock reading is written as decimal digits, at least one, with no leading zero. |
| Text.NatToStringRoundTrip | components/TaskBoard.tsx:63 | Reading the written digits back gives the number. |
| Text.NatToStringInjective | App.tsx:73 | Two clock readings give the same id exactly when they are equal. |
| Text.LeadingDigits | components/StatsChart.tsx:18 | The digits `parseInt` reads are the longest all-digit prefix. |
| Text.ParseInt | components/StatsChart.tsx:18 | `parseInt` gives NaN (None) exactly when the text does not start with a digit. |
| Text.ParseIntRoundTrip | components/StatsChart.tsx:18 | `parseInt` reads back a written number, whatever non-digit text follows it. |
| Text.TakeUntil | components/StatsChart.tsx:18 | `split(c)[0]` is the longest prefix without `c`, and it ends at the first `c` if there is one. |
| Text.TakeUntilSeparator | AddEmployeeModal.tsx:48 | Splitting `a + c + b`, where `a` has no `c`, gives back `a`. |
| Text.ToLowerChar | components/TeamChat.tsx:43 | Lower-casing maps each of A-Z to the letter 32 code points later (a-z) and keeps every other character. |
| Text.ToLower | components/TeamChat.tsx:43 | A lower-cased string keeps its length, and each character is lower-cased in place. |
| Text.ToLowerAppend | components/TeamChat.tsx:43 | Lower-casing commutes with concatenation. |
| Text.ToLowerIdempotent | components/TeamChat.tsx:43 | Lower-casing twice is the same as lower-casing once. |
| Text.Contains | components/TeamChat.tsx:43 | `includes(p)` holds for the empty pattern and for the whole text, and only when the pattern is no longer than the text. ContainsIff gives its exact positional meaning. |
| Text.ContainsIff | components/TeamChat.tsx:43 | `includes(p)` is true exactly when `p` occurs at some position. |
| Text.ContainsInContext | components/TeamChat.tsx:43 | Text added before or after never hides an occurrence. |
| Text.TrimStartSpec | components/TeamChat.tsx:29 | Trimming the start removes exactly the leading white space. |
| Text.TrimEndSpec | components/TeamChat.tsx:29 | Trimming the end removes exactly the trailing white space. |
| Text.Trim | components/TeamChat.tsx:29 | `trim()` never makes a string longer, and leaves alone a string that neither starts nor ends with white space. TrimEmptyIff says when it gives the empty string. |
| Text.TrimEmptyIff | components/TeamChat.tsx:29 | `trim()` gives the empty string exactly when every character is white space. |
| TaskBoard.FindTask | components/TaskBoard.tsx:108 | `find` by id gives None exactly when no task has the id; otherwise it gives the task at the first position with that id. |
| TaskBoard.FirstWithIdUnique | components/TaskBoard.tsx:108 | The first position with a given id is unique. |
| TaskBoard.SetStatus | components/TaskBoard.tsx:111-113 | Every task with the id gets the new status; every other task and field is unchanged. |
| TaskBoard.SetDueDate | components/TaskBoard.tsx:119-124 | Every task with the id gets the new due date; nothing else changes. |
| TaskBoard.Dropped | components/TaskBoard.tsx:104-117 | A drop changes only the status of tasks carrying the dragged id. If the first such task is in another column, all of them move to the drop column. Otherwise the list is unchanged. |
| TaskBoard.DropIdempotent | components/TaskBoard.tsx:104-117 | Dropping the same card on the same column twice is the same as dropping it once. |
| TaskBoard.DropLandsInColumn | components/TaskBoard.tsx:104-117 | When ids are unique, the dragged card ends up in the drop column, whichever column it came from. |
| TaskBoard.Column | components/TaskBoard.tsx:167 | A column shows only tasks of its own status. |
| TaskBoard.ColumnMultiset | components/TaskBoard.tsx:167 | A column shows every task of its status, as often as the store holds it. |
| TaskBoard.ColumnAppend | components/TaskBoard.tsx:167 | An appended task extends its own column only. |
| TaskBoard.ColumnCountsSum | components/TaskBoard.tsx:126 | The four column sizes add up to the number of tasks. |
| TaskBoard.DropExample | components/TaskBoard.tsx:104-117 | Moving t1 from To Do to In Progress leaves To Do empty, and In Progress then holds only t1. |
| TaskBoard.QuickTask | components/TaskBoard.tsx:78-83 | The quick-added card has the entered title, the chosen column, Medium priority and no assignee. Its id reads back as the clock reading. |
| TaskBoard.QuickAdded | components/TaskBoard.tsx:73-85 | A cancelled or empty title changes nothing. Otherwise one Medium-priority card is appended, with the placeholder description and the chosen column, and the earlier tasks are unchanged. |
| TaskBoard.QuickAddLandsInColumn | components/TaskBoard.tsx:73-85 | A quick-added card appears at the bottom of the column it was added from. |
| TaskBoard.AiTask | components/TaskBoard.tsx:62-69 | The AI card has the entered title, the generated description, status To Do, Medium priority and no assignee. Its id reads back as the clock reading. |
| TaskBoard.AiAddAsWritten | components/TaskBoard.tsx:70 | The AI-assisted add as written stores the tasks captured before the await, plus the new card. It misses the intended "current list plus card" whenever the list changed during the await, and meets it when it did not. |
| TaskBoard.StaleSnapshotLosesDrop | components/TaskBoard.tsx:59-70 | For every list and every drop during the await, the as-written result starts with the list from before the drop. Whenever the drop moved a card, the result differs from the dropped list plus the new card. |
| TaskBoard.DropCanMoveCard | components/TaskBoard.tsx:104-117 | Such a drop exists: dropping a To Do card on Done changes the list. |
| TaskBoard.Board.constructor | components/TaskBoard.tsx:10-14 | The board starts from the tasks it is given, not loading, and with no drag in progress. |
| TaskBoard.Board.SyncFromProps | components/TaskBoard.tsx:17-19 | A new `tasks` prop replaces the board's list. |
| TaskBoard.Board.DragStart | components/TaskBoard.tsx:87-91 | The drag carries the task id, and that card is marked as dragged. |
| TaskBoard.Board.DragOver | components/TaskBoard.tsx:93-98 | The hovered column becomes the highlighted column. |
| TaskBoard.Board.DragLeave | components/TaskBoard.tsx:100-102 | No column is highlighted. |
| TaskBoard.Board.Drop | components/TaskBoard.tsx:104-117 | The tasks become `Dropped` of the old tasks, and the drag state is cleared whether or not anything moved. |
| TaskBoard.Board.UpdateTaskDate | components/TaskBoard.tsx:119-124 | The tasks become `SetDueDate` of the old tasks. |
| TaskBoard.Board.QuickAdd | components/TaskBoard.tsx:73-85 | The tasks become `QuickAdded` of the old tasks. |
| TaskBoard.Board.BeginAiAdd | components/TaskBoard.tsx:54-59 | A cancelled or empty title starts nothing. A usable title turns loading on, captures the current tasks (the closure's `tasks`), and starts the request. |
| TaskBoard.Board.CompleteAiAddAsWritten | components/TaskBoard.tsx:60-70 | As written: loading ends, and the list becomes `AiAddAsWritten` of the captured tasks and the current ones. |
| TaskBoard.Board.CompleteAiAdd | components/TaskBoard.tsx:59-70 | Loading ends, and one To Do, Medium card is appended to the current tasks (the corrected behaviour). |
| TaskBoard.Board.CreateTaskWithAI | components/TaskBoard.tsx:54-71 | With nothing else happening during the await: a usable title appends exactly the AI card and ends loading; otherwise nothing changes. |
| TaskBoard.Board.AiAddAcrossDropAsWritten | components/TaskBoard.tsx:54-117 | As written, with a drop during the await: the list ends as it was before the drop plus the new card. It differs from the dropped list plus the card whenever the drop moved anything. |
| TaskBoard.Board.AiAddAcrossDrop | components/TaskBoard.tsx:54-117 | Corrected, with a drop during the await: the list ends as the dropped list plus the new card, and loading is off. |
| Dashboard.FilterProjects | App.tsx:127-130 | Filter "All" keeps the list as it is. Any other filter keeps only projects whose status equals it. |
| Dashboard.FilterProjectsMultiset | App.tsx:127-130 | Every passing project is kept, as often as it occurs, and nothing else. |
| Dashboard.FilterProjectsAppend | App.tsx:129 | Filtering works piecewise over a concatenation, so the kept projects stay in their original order. |
| Dashboard.NameLeReflexive | App.tsx:135 | Every name compares as equal to itself. |
| Dashboard.NameLeTotal | App.tsx:135 | Any two names compare one way or the other. |
| Dashboard.NameLeTransitive | App.tsx:135 | The name order is transitive. |
| Dashboard.Precedes | App.tsx:133-140 | Two projects with the same name and due date may stay in either order under every sort key, because the comparator gives 0 for them. |
| Dashboard.PrecedesTotal | App.tsx:133-140 | For every sort key, any two projects compare one way or the other. |
| Dashboard.PrecedesTransitive | App.tsx:133-140 | For every sort key, the comparator's order is transitive. |
| Dashboard.Insert | App.tsx:133-140 | Insertion adds exactly one element. |
| Dashboard.SortProjects | App.tsx:133-140 | Sorting is a permutation of its input. |
| Dashboard.InsertSorted | App.tsx:133-140 | Inserting into a sorted list keeps it sorted. |
| Dashboard.SortSorted | App.tsx:133-140 | The sorted list is ordered by the comparator for the sort key. |
| Dashboard.TiesWithCons | App.tsx:133-140 | The projects tied with `q` in `a` followed by `t` are `a` (if it ties) followed by those in `t`. |
| Dashboard.InsertKeepsTies | App.tsx:133-140 | Insertion places a new element before the elements it ties with, which is what keeps the sort stable. |
| Dashboard.SortStable | App.tsx:133-140 | Projects the comparator calls equal keep their relative order (the sort is stable). |
| Dashboard.UnknownKeyKeepsOrder | App.tsx:139 | An unknown sort key leaves the order unchanged. |
| Dashboard.ProcessedProjects | App.tsx:124-143 | The listing rearranges the filtered projects and is never longer than the collection. Under filter "All" it holds the whole collection. ProcessedProjectsSpec adds the order and stability. |
| Dashboard.ProcessedProjectsSpec | App.tsx:124-143 | The listing holds exactly the passing projects, each as often as in the collection, ordered by the sort key and stable on ties. An unknown key leaves the filtered order. |
| Dashboard.Upsert | App.tsx:99-106 | An existing id is replaced in place; a new id is appended at the end. |
| Dashboard.UpsertStoresProject | App.tsx:99-106 | After a save, the project is in the list and is the only entry with its id. Saving again changes nothing. |
| Dashboard.RemoveById | App.tsx:112 | No survivor has the deleted id. |
| Dashboard.RemoveByIdMultiset | App.tsx:112 | Deleting keeps every other project, as often as it occurs. |
| Dashboard.RemoveByIdAppend | App.tsx:112 | Deleting works piecewise over a concatenation, so the survivors keep their order. |
| Dashboard.RemoveAfterUpsert | App.tsx:99-116 | Saving a project and then deleting it leaves what deleting it would have left before the save. |
| Dashboard.ReplacedRemoved | App.tsx:102 | Deleting by id after replacing by that id is the same as deleting by it. |
| Dashboard.AssignToFirst | App.tsx:83-88 | The task is appended to the first project's tasks and the other projects are unchanged. With no projects nothing changes. |
| Dashboard.AllTasks | App.tsx:317 | The aggregated list is empty when there are no projects, is exactly a single project's own tasks, and is at least as long as any one project's task list. AllTasksAppend and AllTasksMembership complete the picture. |
| Dashboard.AllTasksAppend | App.tsx:317 | The tasks of `a + b` are the tasks of `a` followed by those of `b`, so every project contributes its tasks in store order and as often as it holds them. |
| Dashboard.AllTasksMembership | App.tsx:317 | A task is in the aggregated list exactly when some project owns it. |
| Dashboard.AssignAddsOneTask | App.tsx:83-88 | Assigning a task adds exactly that task to the aggregated list. |
| Dashboard.NewTask | App.tsx:71-81 | The new task's id is the clock reading, and every other field comes from the form payload. |
| Dashboard.NewEmployee | App.tsx:91-95 | The new employee's id is "u" followed by the clock reading, and the rest comes from the payload. |
| Dashboard.EmployeeIdsDiffer | App.tsx:93 | Employees added at different clock readings get different ids. |
| Dashboard.LoginUser | App.tsx:55-61 | The ADMIN role gets the admin demo account, any other role gets the regular one, and both use the typed email. |
| Dashboard.App.constructor | App.tsx:20-40 | The app starts logged out on the dashboard tab, with filter "All", sort "dueDate" and no project being edited. |
| Dashboard.App.Login | App.tsx:55-64 | The current user becomes `LoginUser`, the user is authenticated, and the tab is the dashboard. |
| Dashboard.App.Logout | App.tsx:66-69 | The user is logged out, and the tab is the dashboard. |
| Dashboard.App.SetFilter | App.tsx:268-269 | The filter becomes the chosen value. |
| Dashboard.App.SetSort | App.tsx:279-280 | The sort key becomes the chosen value. |
| Dashboard.App.AssignTask | App.tsx:71-89 | The projects become `AssignToFirst` of the old projects with `NewTask`. |
| Dashboard.App.AddEmployee | App.tsx:91-97 | The roster gets `NewEmployee` appended. |
| Dashboard.App.SaveProject | App.tsx:99-108 | The projects become `Upsert` of the old ones, and no project is being edited. |
| Dashboard.App.DeleteProject | App.tsx:110-116 | If confirmed, the projects become `RemoveById` of the old ones and the editor closes. If declined, nothing changes. |
| Dashboard.App.OpenEditProject | App.tsx:118-121 | The editor opens on the chosen project. |
| Dashboard.App.OpenNewProject | App.tsx:286 | The editor opens with no project to edit. |
| Dashboard.App.CloseProjectModal | App.tsx:414 | The editor closes and forgets the project. |
| ProjectForm.DraftOf | components/ProjectModal.tsx:36-37 | Opening an existing project loads a copy of its fields. |
| ProjectForm.UserIdsAppend | components/ProjectModal.tsx:81 | The ids of `a + b` are the ids of `a` together with the ids of `b`. |
| ProjectForm.WithoutId | components/ProjectModal.tsx:76 | No kept member has the id. |
| ProjectForm.WithoutIdMultiset | components/ProjectModal.tsx:76 | Every member with another id is kept, as often as it occurs. |
| ProjectForm.WithoutIdIds | components/ProjectModal.tsx:76 | The ids after removal are the ids before, minus the removed one. |
| ProjectForm.WithoutAbsentId | components/ProjectModal.tsx:76 | Removing an absent id keeps the list as it is. |
| ProjectForm.WithoutIdAppend | components/ProjectModal.tsx:76 | Removal works piecewise over a concatenation. |
| ProjectForm.ToggleMembers | components/ProjectModal.tsx:66-84 | An unknown user changes nothing. A selected user is removed wherever it occurs. An unselected user is appended once at the end, as the directory's first member with that id, and the earlier selection is kept. |
| ProjectForm.ToggleFlipsId | components/ProjectModal.tsx:66-84 | A toggle adds or removes exactly the toggled id and keeps every other member. |
| ProjectForm.ToggleKeepsDistinct | components/ProjectModal.tsx:66-84 | A selection without repeated ids keeps that property after a toggle. |
| ProjectForm.DistinctIdsTail | components/ProjectModal.tsx:76 | Distinct ids stay distinct in the tail. |
| ProjectForm.HeadIdNotKept | components/ProjectModal.tsx:76 | No member kept from the tail shares the head's id. |
| ProjectForm.SelectionIdsDistinct | components/ProjectModal.tsx:76 | Filtering by id keeps ids distinct. |
| ProjectForm.ToggleTwice | components/ProjectModal.tsx:66-84 | Toggling twice restores the selected ids, and restores the list itself when the member was not selected. |
| ProjectForm.SubmitProject | components/ProjectModal.tsx:86-100 | An empty name gives nothing. Otherwise the id is the edited project's non-empty id, else "p" followed by the clock reading. The tasks are the edited project's, or none for a new project. An empty due date becomes the clock's timestamp. Name, description, status, progress, members and image come from the form. |
| ProjectForm.EditRoundTrip | components/ProjectModal.tsx:36-37 | Opening a project and saving it untouched gives the same project back. |
| ProjectForm.NewProjectDefaults | components/ProjectModal.tsx:39-48 | A new project from the blank form gets its id from the clock, no members, no tasks, Active status, progress 0, and the clock's timestamp as due date. |
| ProjectForm.NewProjectIdsDiffer | components/ProjectModal.tsx:91 | Projects created at different clock readings get different ids. |
| ProjectForm.ProjectModal.constructor | components/ProjectModal.tsx:23-31 | The form starts blank. |
| ProjectForm.ProjectModal.Open | components/ProjectModal.tsx:34-51 | Opening loads the edited project, or the blank form. |
| ProjectForm.ProjectModal.SetImage | components/ProjectModal.tsx:55-64 | Only the image changes. |
| ProjectForm.ProjectModal.ToggleMember | components/ProjectModal.tsx:66-84 | Only the members change, to `ToggleMembers` of the old members. |
| ProjectForm.ProjectModal.Submit | components/ProjectModal.tsx:86-104 | An empty name emits nothing. Otherwise it saves `SubmitProject` and then closes. |
| ProjectForm.ProjectModal.RequestDelete | components/ProjectModal.tsx:123-124 | Delete is offered only while editing, and it names the edited project's id. |
| AssignTaskForm.BuildPayload | AdminTaskModal.tsx:36-46 | The payload has status To Do and the fields as entered. The assignee is a member carrying the chosen id, or absent exactly when no member has it. |
| AssignTaskForm.AssigneeIsFirstMatch | AdminTaskModal.tsx:36 | The assignee is the first member with the chosen id. |
| AssignTaskForm.AdminTaskModal.constructor | AdminTaskModal.tsx:14-19 | The form starts blank, with Medium priority. |
| AssignTaskForm.AdminTaskModal.SetImagePreview | AdminTaskModal.tsx:23-32 | The preview becomes the read image. |
| AssignTaskForm.AdminTaskModal.Submit | AdminTaskModal.tsx:34-55 | Without any guard, it emits the payload and then closes. The text fields, assignee and image are cleared, and the priority is kept. |
| EmployeeForm.BuildPayload | AddEmployeeModal.tsx:39-50 | The payload has the fields as entered, the uploaded picture or the default avatar, no projects, and the date part of the clock: the timestamp up to its first 'T', or all of it when it has none. |
| EmployeeForm.JoinedDateIsDatePart | AddEmployeeModal.tsx:48 | For a timestamp `date + "T" + time`, the joined date is exactly `date`. |
| EmployeeForm.AddEmployeeModal.constructor | AddEmployeeModal.tsx:13-20 | The form starts blank, with role USER and gender Male. |
| EmployeeForm.AddEmployeeModal.SetImagePreview | AddEmployeeModal.tsx:24-33 | The preview becomes the read image. |
| EmployeeForm.AddEmployeeModal.Submit | AddEmployeeModal.tsx:35-62 | A missing name or email emits nothing and changes nothing. Otherwise it emits the payload, resets the form, and closes. |
| TeamChat.SeedMessages | components/TeamChat.tsx:11-14 | The panel starts with two messages: the assistant's greeting text, then a message from teammate u2. |
| TeamChat.BlankIffAllSpace | components/TeamChat.tsx:29 | Input is blank exactly when it is all white space. |
| TeamChat.AddressesAiIgnoresCase | components/TeamChat.tsx:43 | The assistant trigger ignores letter case. |
| TeamChat.AddressesAiInContext | components/TeamChat.tsx:43 | Text around a trigger never hides it. |
| TeamChat.AddressesAiIff | components/TeamChat.tsx:43 | A message addresses the assistant exactly when "@ai" or "nexus" occurs in its lower-cased text. |
| TeamChat.UserMessage | components/TeamChat.tsx:31-36 | The sent message has the user as sender, the typed text and the clock reading, and is not marked as the assistant's. Its id reads back as the clock reading. |
| TeamChat.AiMessage | components/TeamChat.tsx:47-53 | The answer comes from "ai", carries the service's text and is marked as the assistant's. Its id differs from that of a user message sent at the same clock reading. |
| TeamChat.TeamReplyMessage | components/TeamChat.tsx:62-67 | The reply comes from u2 with the canned text. Its id differs from those of the user's message and the assistant's answer at the same clock reading. |
| TeamChat.RepliesGetFreshIds | components/TeamChat.tsx:31-65 | A reply posted no earlier than the message it answers never reuses that message's id. |
| TeamChat.FollowUpFor | components/TeamChat.tsx:43-71 | The assistant is asked, with the sent text, exactly when it is addressed. A teammate reply is scheduled only when the draw exceeds 0.7. |
| TeamChat.FollowUpForSpec | components/TeamChat.tsx:43-71 | The assistant is asked exactly when addressed. Otherwise a teammate replies exactly when the draw exceeds 0.7, and the message is left alone otherwise. |
| TeamChat.Chat.constructor | components/TeamChat.tsx:10-16 | The panel starts with the seed messages, empty input, and not typing. |
| TeamChat.Chat.SetInput | components/TeamChat.tsx:140 | The input becomes the typed text. |
| TeamChat.Chat.Send | components/TeamChat.tsx:27-46 | Blank input changes nothing. Otherwise the message is appended, the input cleared, the follow-up returned, and typing shown while the assistant is asked. |
| TeamChat.Chat.ReceiveAiReply | components/TeamChat.tsx:46-57 | The answer is appended, and typing stops. |
| TeamChat.Chat.DeliverTeamReply | components/TeamChat.tsx:61-69 | The teammate's reply is appended. |
| TeamChat.Chat.AskAndAnswer | components/TeamChat.tsx:27-72 | A full exchange with the assistant appends the question and then the answer, and leaves the panel idle. |
| ChannelChat.SeedMessages | TeamChat.tsx:12-16 | Two seed messages are in the team channel and one, from the administrator, in the admin channel. |
| ChannelChat.VisibleIn | TeamChat.tsx:76 | A channel shows only its own messages. |
| ChannelChat.VisibleInMultiset | TeamChat.tsx:76 | A channel shows each of its messages as often as it was posted, and nothing from the other channel. |
| ChannelChat.VisibleInAppend | TeamChat.tsx:76 | Filtering works piecewise over a concatenation. |
| ChannelChat.PostedToOneChannel | TeamChat.tsx:76 | A posted message appears at the end of its own channel and leaves the other channel unchanged. |
| ChannelChat.ChannelsPartition | TeamChat.tsx:76 | Every message is in exactly one of the two channels. |
| ChannelChat.UserMessage | TeamChat.tsx:33-39 | The sent message has the user as sender, the typed text and the clock reading, and is posted in the given channel. Its id reads back as the clock reading. |
| ChannelChat.AiMessage | TeamChat.tsx:49-56 | The answer comes from "ai", carries the service's text, is marked as the assistant's, and is posted in the channel of the question. Its id differs from that of a user message sent at the same clock reading. |
| ChannelChat.AdminReplyMessage | TeamChat.tsx:64-70 | The acknowledgement comes from a1 with the canned text and is posted in the admin channel. Its id differs from those of the user's message and the assistant's answer at the same clock reading. |
| ChannelChat.FollowUpFor | TeamChat.tsx:45-73 | The assistant is asked exactly when it is addressed, with the sent text and the channel it was sent in. The acknowledgement is scheduled only in the admin channel. |
| ChannelChat.FollowUpForSpec | TeamChat.tsx:45-73 | The assistant takes precedence and answers in the channel of the question. In the admin channel an unaddressed message gets the acknowledgement. In the team channel it gets nothing. |
| ChannelChat.Chat.constructor | TeamChat.tsx:10-18 | The panel starts in the team channel with the seed messages. |
| ChannelChat.Chat.Visible | TeamChat.tsx:76 | The screen shows only messages of the active channel. |
| ChannelChat.Chat.SwitchChannel | TeamChat.tsx:98-104 | The active channel becomes the chosen one. |
| ChannelChat.Chat.SetInput | TeamChat.tsx:163 | The input becomes the typed text. |
| ChannelChat.Chat.Send | TeamChat.tsx:29-46 | Blank input changes nothing. Otherwise the message is posted in the active channel, the input cleared, and the follow-up returned. |
| ChannelChat.Chat.ReceiveAiReply | TeamChat.tsx:48-60 | The answer is posted in the channel the question was sent in, and typing stops. |
| ChannelChat.Chat.DeliverAdminReply | TeamChat.tsx:63-72 | The administrator's acknowledgement is posted in the admin channel. |
| ChannelChat.AnswerStaysInAskedChannel | TeamChat.tsx:55 | An answer that arrives after the user switched channel is not shown in the channel now open. |
| StatsChart.HourRoundTrip | components/StatsChart.tsx:18-21 | A label written for hour `h` reads back as `h`. |
| StatsChart.NextLabel | components/StatsChart.tsx:18-21 | A label whose hour cannot be read is followed by "NaN:00". Every next label is either "NaN:00" or the label of an hour of the day, 0 to 23. NextLabelAdvances says which hour. |
| StatsChart.NextLabelAdvances | components/StatsChart.tsx:18-21 | After the label of hour `h` comes the label of hour `(h + 1) % 24`, so after 23:00 comes 0:00. |
| StatsChart.NaNLabelIsSticky | components/StatsChart.tsx:18-21 | Once a label has no leading number, every later label is "NaN:00". |
| StatsChart.Productivity | components/StatsChart.tsx:22 | A new point's productivity is between 50 and 89. |
| StatsChart.NextWindow | components/StatsChart.tsx:17-25 | A tick drops the oldest point and appends the next hour's point, keeping the window size. |
| StatsChart.LabelReadsAsHour | components/StatsChart.tsx:18 | Every label of a labelled window reads back as its hour. |
| StatsChart.InitialDataLabelled | components/StatsChart.tsx:6-13 | The first window is labelled 9:00 to 14:00. |
| StatsChart.InitialHoursConsecutive | components/StatsChart.tsx:6-13 | The first window's hours follow one another. |
| StatsChart.NextHours | components/StatsChart.tsx:19 | The hours slide by one, and the new hour follows the last one. |
| StatsChart.NextHoursConsecutive | components/StatsChart.tsx:19 | Sliding keeps the hours consecutive. |
| StatsChart.SlideLabelled | components/StatsChart.tsx:24 | Dropping the first point and appending a labelled one keeps the window labelled. |
| StatsChart.TickKeepsLabels | components/StatsChart.tsx:17-25 | A tick keeps every label equal to the label of its hour. |
| StatsChart.ProductivityChart.constructor | components/StatsChart.tsx:6-13 | The chart starts with the 9:00 to 14:00 window, six points labelled with consecutive hours. |
| StatsChart.ProductivityChart.Tick | components/StatsChart.tsx:16-27 | One interval tick: the data become `NextWindow` of the old data, and the window stays six points labelled with consecutive hours. |

## Left out

- The network calls to the AI service (`services/geminiService.ts`) are not part of this model. The generated text is an input to the completing method. The service never throws: it returns a fallback message instead. So the model has no error path for it.
- Timers (`setTimeout`, `setInterval`, `clearInterval`) are modelled as the later method call that delivers their effect. Their cancellation on unmount is not modelled.
- The DOM is not modelled: scrolling to the newest message, dark mode, the sidebar, the drag image, the loading spinner and all rendering.
- `Date.now()`, the ISO form of `new Date()` and `Math.random()` are inputs. Message timestamps are clock numbers, not `Date` objects.
- The answers to `prompt` and `confirm` are inputs: `Option<string>` (None for cancel) and `bool`.
- Dashboard.NameLe: `localeCompare` is modelled as character-by-character order; locale collation is not modelled.
- Dashboard.Precedes: the due-date order takes the parsed time as a function parameter (`timeOf`). Date-string parsing, and the NaN an invalid date gives, are not modelled; with NaN the JavaScript sort order depends on the engine.
- Text.ParseInt: leading white space and a sign are not modelled. The chart only parses labels it wrote itself, which start with a digit or "N".
- Text.ToLowerChar: only A-Z are lower-cased. The full Unicode case mapping is not modelled. For example, JavaScript lower-cases "İ" to "i" plus a combining dot, so "@Aİ" addresses the assistant there but not in the model.
- The FileReader is not modelled: an uploaded image arrives as an already-read data URL string.
- In handleAssignTask the first project's task array is mutated in place through a shallow copy, so the previous state shares it. The model builds a new value; this aliasing is not captured.
- The form field setters (`setTitle`, `setName`, the dropdowns, ...) are direct field assignments and have no methods, except chat input and channel switching.
- Opening and closing the task and employee modals in App.tsx are plain flags and are not modelled. The project editor's flags are modelled.
- The presentation components (AuthPage, Header, ProfileView, CustomDropdown, ProjectCard, Sidebar) are not part of this model, nor is the `Notification` type they use.
- The seed data of constants.ts is not part of this model, except the two demo accounts the login uses. The app's constructor takes the seed projects and roster as inputs.
- ProjectForm.SubmitProject: `formData.progress || 0` maps NaN to 0. The model's progress is an integer, so only the identity case is modelled.
- StatsChart.ProductivityChart: the hours behind the labels are a ghost field. The run-time chart only stores the labels.

## Findings

| source | as written | input that shows it | evidently intended | confidence | as-written member | corrected member |
|---|---|---|---|---|---|---|
| components/TaskBoard.tsx:70 | After `await generateTaskDescription`, the new list is built from the `tasks` captured when the handler started. | Task t1 in To Do. Start an AI add. While the description is pending, drop t1 on Done. When the description arrives, t1 is back in To Do. | Append to the current list (`setTasks(prev => [...prev, newTask])`), as the chat panels do, so the drop is kept. | medium, not executed | TaskBoard.AiAddAsWritten | TaskBoard.Board.CompleteAiAdd |
