# TASKIT in Dafny

TASKIT is a project-management web application. Signed-in users keep projects. Each project has a Kanban task board, a discussion thread, files and links, and a member list with roles. A dashboard and a projects page summarise the projects, and a notification centre collects updates.

This project models the application's client-side logic:

- what each screen's state holds;
- what every handler does to that state;
- the figures the screens derive from it, such as progress percentages, counts, badges and relative-time labels;
- the form schemas;
- the mock user table.

## How it is modelled

- **Pure helpers** become functions, with lemmas about them. This covers the form schemas, the constant tables, the text and time helpers, and the progress rounding.
- **Components** become classes. Each component that keeps `useState` state is a class whose fields are that state. Each handler is a method with `modifies this`.
  - Every method's `ensures` gives the new state as a function of the old one.
  - The lemmas beside those functions state what a handler preserves or guarantees.
- **Entities** are datatypes: tasks, comments, members, files, links, notifications and projects.
- **Environment inputs** are parameters. The clock (millisecond readings), the fresh ids made from `Date.now()` or `Math.random()`, and the random draws of the simulations are all passed in.

Modules, one per source file plus shared helpers:

| module | source file |
|---|---|
| `Collections` | shared: `filter`, `map`, `find`, `findIndex` and subsequences |
| `Text` | shared: `toLowerCase`/`toUpperCase`, `includes`, `trim`, `split`, `join` |
| `Arithmetic` | shared: cancelling and keeping order under a positive factor |
| `Elapsed` | shared: the "minutes / hours / days ago" bucketing |
| `Progress` | shared: `Math.round(completed / total * 100)` |
| `KanbanBoard` | `src/components/projects/kanban-board.tsx` |
| `TaskModal` | `src/components/projects/task-modal.tsx` |
| `DiscussionPanel` | `src/components/projects/discussion-panel.tsx` |
| `MembersPanel` | `src/components/projects/members-panel.tsx` |
| `ResourcesPanel` | `src/components/projects/resources-panel.tsx` |
| `NotificationCenter` | `src/components/notifications/notification-center.tsx` |
| `Dashboard` | `src/app/dashboard/page.tsx` |
| `ProjectsPage` | `src/app/projects/page.tsx` |
| `ProjectCard` | `src/components/projects/project-card.tsx` |
| `Utils` | `src/lib/utils.ts` |
| `Constants` | `src/lib/constants.ts` |
| `Validations` | `src/lib/validations/index.ts` |
| `Auth` | `src/lib/auth.ts` |

### Modelling decisions

- **Progress rounding.** `Math.round(c / t * 100)` is taken as half-up rounding of the exact rational `100c/t`, which is `(200c + t) div 2t`. `Progress.Percent` states this as a two-sided bound.
- **Relative-time labels** are a datatype `Elapsed.Label`: just now, n minutes, n hours, n days, or a calendar date. The label is not a rendered string.
  - The notification centre writes "Just now"; the other panels write "just now".
  - Only the notification centre falls back to a calendar date after seven days.
- **Form schemas.** Each schema is a function giving the set of fields whose rule an input breaks. An input is accepted exactly when that set is empty.
  - The library's e-mail and URL format checks are parameters.
  - The password-confirmation refinement is reported on the confirmation field alongside any field failures.
- **A board drop onto another column** only changes the dragged task's status. The task keeps its place in the task list, so it shows up at the position its list order gives it in the new column. It is not inserted at the drop position.
- **No-op drops.** A drop outside every target, or of an id not on the board, leaves the board unchanged. Nothing reports an error.
- **A same-column drop on the column header itself** finds no index for the target. `arrayMove` then gets `-1` and moves the task to the end of its column. `KanbanBoard.MoveTarget` models that library's negative-index rule.
- **The members panel's role permissions** (`view_project`, `manage_tasks`, ...) are the panel's own vocabulary. They are not the `PROJECT_PERMISSIONS` constants; both are modelled as written.
- **The validation messages** say "less than N characters", but `max(N)` accepts exactly N characters. The model follows the rule, not the message.
- **String lengths** in the form schemas and in `signIn` are JavaScript's `length`: UTF-16 code units (`Text.JsLength`). A character outside the Basic Multilingual Plane counts twice. Where the README says "characters" for those limits, it means code units.
- **A negative `maxLength`** in `truncateText` goes through `slice`'s count-from-the-end rule (`Utils.SliceEnd`).

## Model

| member | source | states |
|---|---|---|
| KanbanBoard.ColumnOfStatusName | src/components/projects/kanban-board.tsx:375-379 | the drop-target ids "todo", "in_progress" and "done" name exactly the three columns, and each status's id names that status |
| KanbanBoard.TasksByStatus | src/components/projects/kanban-board.tsx:381-383 | `getTasksByStatus`; specified by `ColumnContents` and `ColumnsPartition` |
| KanbanBoard.ColumnContents | src/components/projects/kanban-board.tsx:381-383 | a column holds exactly the board's tasks of that status, each as often as on the board, in board order |
| KanbanBoard.ColumnsPartition | src/components/projects/kanban-board.tsx:381-383 | the three columns together hold every task of the board exactly once |
| KanbanBoard.MoveTarget | src/components/projects/kanban-board.tsx:438 | the index `arrayMove` reinserts at: the target itself when in range, the last slot for -1 |
| KanbanBoard.ArrayMove | src/components/projects/kanban-board.tsx:438 | `arrayMove(items, from, to)`: remove at `from`, reinsert at `MoveTarget`; its contract is `ArrayMoveSpec` |
| KanbanBoard.ArrayMoveSpec | src/components/projects/kanban-board.tsx:438 | `arrayMove` keeps the length and the elements, puts the moved element at the target, and keeps every other element's order |
| KanbanBoard.ArrayMoveSameIndex | src/components/projects/kanban-board.tsx:437-438 | moving an element onto its own index changes nothing, which is why the handler skips it |
| KanbanBoard.TargetStatus | src/components/projects/kanban-board.tsx:410-422 | a drop picks the column dropped on, else the status of the first task with the target id, else keeps the dragged task's status |
| KanbanBoard.DragEnd | src/components/projects/kanban-board.tsx:397-445 | the board after `handleDragEnd`; specified by `DragEndWithoutEffect`, `DragEndAcrossColumns` and `DragEndWithinColumn` |
| KanbanBoard.DragEndWithoutEffect | src/components/projects/kanban-board.tsx:402-409 | a drop with no target, or of an id not on the board, leaves the board unchanged |
| KanbanBoard.DragEndAcrossColumns | src/components/projects/kanban-board.tsx:424-432 | a status-changing drop keeps the length and changes only the status of the tasks with the dragged id; with unique ids, exactly the dragged task moves to the new column |
| KanbanBoard.DragEndWithinColumn | src/components/projects/kanban-board.tsx:433-443 | a same-status drop is a permutation of the board that leaves every other column untouched and only reorders the dragged task's column |
| KanbanBoard.ReorderedPermutation | src/components/projects/kanban-board.tsx:438-441 | the other-status tasks followed by a reordering of one column are a permutation of the board |
| KanbanBoard.ReorderedColumns | src/components/projects/kanban-board.tsx:438-441 | after that rebuild, every other column reads as before and the reordered column reads as the new order |
| KanbanBoard.DragEndReorderPosition | src/components/projects/kanban-board.tsx:433-443 | dropped on a task of its own column, the dragged task lands at that task's former index within the column |
| KanbanBoard.DragEndOntoItself | src/components/projects/kanban-board.tsx:436-437 | a task dropped onto itself stays where it was |
| KanbanBoard.NewTask | src/components/projects/kanban-board.tsx:464-473 | a created task takes the id and title from the dialog's data, the column the dialog was opened from in preference to the data's status, and the other keys as given |
| KanbanBoard.Merge | src/components/projects/kanban-board.tsx:476-478 | `{ ...task, ...taskData }`; its laws are `MergeLaws` and `MergeOverlay` |
| KanbanBoard.MergeLaws | src/components/projects/kanban-board.tsx:476-478 | the spread merge `{ ...task, ...taskData }`: for each of the seven keys a key present in the patch replaces the task's value and an absent one keeps it, so the empty patch is the identity and merging twice is merging once |
| KanbanBoard.MergeOverlay | src/components/projects/kanban-board.tsx:476-478 | merging one patch after another is merging their overlay, the later patch winning key by key, with the empty patch neutral |
| KanbanBoard.SaveTask | src/components/projects/kanban-board.tsx:463-480 | the board after `handleSaveTask`; specified by `SaveTaskCreate`, `SaveTaskCreateFresh` and `SaveTaskEdit` |
| KanbanBoard.SaveTaskCreate | src/components/projects/kanban-board.tsx:463-474 | a create appends exactly one task, which becomes the last task of its column |
| KanbanBoard.SaveTaskCreateFresh | src/components/projects/kanban-board.tsx:463-474 | a create with an id not yet on the board keeps the ids unique |
| KanbanBoard.SaveTaskEdit | src/components/projects/kanban-board.tsx:475-479 | an edit merges the data into the tasks with its id, leaves all others alone, and is a no-op without an id |
| KanbanBoard.DeleteTask | src/components/projects/kanban-board.tsx:482-484 | the board after `handleDeleteTask`; specified by `DeleteTaskSpec` |
| KanbanBoard.DeleteTaskSpec | src/components/projects/kanban-board.tsx:482-484 | a delete removes every task with the id, keeps every other task in order and exactly as often as before, works column by column, and is a no-op for an unknown id |
| KanbanBoard.InitialTasksUnique | src/components/projects/kanban-board.tsx:287-352 | the seeded tasks have distinct ids |
| KanbanBoard.Board.constructor | src/components/projects/kanban-board.tsx:276-354 | the board starts with the seeded tasks, no drag in progress and the dialog closed in create mode |
| KanbanBoard.Board.HandleDragStart | src/components/projects/kanban-board.tsx:393-395 | records the dragged id and nothing else |
| KanbanBoard.Board.HandleDragEnd | src/components/projects/kanban-board.tsx:397-445 | the new task list is `DragEnd` of the old one and the drag is cleared |
| KanbanBoard.Board.HandleCreateTask | src/components/projects/kanban-board.tsx:447-453 | opens the dialog in create mode for the column |
| KanbanBoard.Board.HandleEditTask | src/components/projects/kanban-board.tsx:455-461 | opens the dialog in edit mode on the task |
| KanbanBoard.Board.HandleSaveTask | src/components/projects/kanban-board.tsx:463-480 | the new task list is `SaveTask` of the old one under the dialog's mode and column |
| KanbanBoard.Board.HandleDeleteTask | src/components/projects/kanban-board.tsx:482-484 | the new task list is `DeleteTask` of the old one |
| KanbanBoard.Board.CloseTaskModal | src/components/projects/kanban-board.tsx:486-488 | closes the dialog and resets it to create mode |
| TaskModal.InitialForm | src/components/projects/task-modal.tsx:67-74 | the form shows the task's values, with `""`, "todo" and "medium" for the missing ones |
| TaskModal.LookupAssignee | src/components/projects/task-modal.tsx:84 | the assignee is the team member with the selected id, and none exactly when no member has it |
| TaskModal.LookupAssigneeCases | src/components/projects/task-modal.tsx:52-57 | the empty selection finds nobody and every team member's id finds that member |
| TaskModal.TaskDataId | src/components/projects/task-modal.tsx:87 | the saved id is the task's own non-empty id, else the fresh one |
| TaskModal.BuildTaskData | src/components/projects/task-modal.tsx:79-95 | a blank title saves nothing; otherwise the data carries the id, every form field and the looked-up assignee |
| TaskModal.SaveEnabledIffSaves | src/components/projects/task-modal.tsx:290 | the Save button is enabled exactly when clicking it saves, and never while loading |
| TaskModal.SavedDataCreates | src/components/projects/task-modal.tsx:79-98 | saved data always meets the board's create demands, and a create opened from a column lands in that column |
| TaskModal.DeleteTarget | src/components/projects/task-modal.tsx:106-112 | a delete goes ahead exactly when the task has a non-empty id and a delete handler was given, and it names that id |
| TaskModal.StaleFormOverwritesTask | src/components/projects/task-modal.tsx:67-74 | the form initialised once at mount, reused for an edit, hides the task's title, and a save clears its assignee and description |
| TaskModal.FreshFormKeepsTask | src/components/projects/task-modal.tsx:67-95 | with the form taken from the task, an unedited save keeps the task's id, title, status, description and priority |
| TaskModal.Dialog.constructor | src/components/projects/task-modal.tsx:67-76 | the dialog starts with the form from its task and not loading |
| TaskModal.Dialog.ReceiveProps | src/components/projects/task-modal.tsx:58-74 | new props replace the task and mode but keep the old form |
| TaskModal.Dialog.Open | src/components/projects/task-modal.tsx:67-74 | reopening on a task resets the form from it |
| TaskModal.Dialog.SetTitle | src/components/projects/task-modal.tsx:67-74 | a title edit changes only that form field |
| TaskModal.Dialog.SetDescription | src/components/projects/task-modal.tsx:67-74 | a description edit changes only that form field |
| TaskModal.Dialog.SetStatus | src/components/projects/task-modal.tsx:67-74 | a status edit changes only that form field |
| TaskModal.Dialog.SetAssigneeId | src/components/projects/task-modal.tsx:67-74 | an assignee edit changes only that form field |
| TaskModal.Dialog.SetDueDate | src/components/projects/task-modal.tsx:67-74 | a due-date edit changes only that form field |
| TaskModal.Dialog.SetPriority | src/components/projects/task-modal.tsx:67-74 | a priority edit changes only that form field |
| TaskModal.Dialog.HandleSave | src/components/projects/task-modal.tsx:79-101 | returns `BuildTaskData` of the form and clears the loading flag when it saved |
| TaskModal.Dialog.HandleDelete | src/components/projects/task-modal.tsx:106-118 | returns `DeleteTarget` of the task and clears the loading flag when it deleted |
| DiscussionPanel.SubmitComment | src/components/projects/discussion-panel.tsx:94-111 | the comment list after `handleSubmitComment`; specified by `SubmitCommentSpec` |
| DiscussionPanel.SubmitCommentSpec | src/components/projects/discussion-panel.tsx:94-111 | a blank comment changes nothing; otherwise exactly one comment goes in front, with the untrimmed text, the fresh id, the current user, the clock reading, no likes and no replies or attachments |
| DiscussionPanel.WordRun | src/components/projects/discussion-panel.tsx:128 | the longest run of word characters from a position, as `\w+` matches it |
| DiscussionPanel.MatchEnd | src/components/projects/discussion-panel.tsx:128 | a mention match runs at least two characters and stops before a non-word character |
| DiscussionPanel.MentionParts | src/components/projects/discussion-panel.tsx:128 | `text.split(/(@\w+)/)`; specified by `MentionPartsSpec` |
| DiscussionPanel.MentionPartsSpec | src/components/projects/discussion-panel.tsx:128 | `split(/(@\w+)/)` gives an odd number of parts that join back to the text, with mentions exactly at the odd positions |
| DiscussionPanel.RenderMentionsAsWritten | src/components/projects/discussion-panel.tsx:127-138 | `renderMentions` as written, highlighting every part that starts with "@"; `LoneAtHighlighted` and `RenderingsAgree` are about it |
| DiscussionPanel.RenderMentions | src/components/projects/discussion-panel.tsx:127-138 | the corrected rendering, highlighting only the captured mentions; specified by `RenderMentionsSpec` |
| DiscussionPanel.RenderMentionsSpec | src/components/projects/discussion-panel.tsx:127-138 | the rendering shows the text unchanged, and a segment is highlighted exactly when it is a mention |
| DiscussionPanel.RenderingsAgree | src/components/projects/discussion-panel.tsx:129 | the two renderings differ exactly when some plain part starts with "@" |
| DiscussionPanel.LoneAtHighlighted | src/components/projects/discussion-panel.tsx:129 | "@ everyone" is highlighted as written although it holds no mention |
| DiscussionPanel.Panel.constructor | src/components/projects/discussion-panel.tsx:45-92 | the panel starts with the seeded comments and an empty draft |
| DiscussionPanel.Panel.SetNewComment | src/components/projects/discussion-panel.tsx:91 | typing changes only the draft |
| DiscussionPanel.Panel.SetReplyingTo | src/components/projects/discussion-panel.tsx:243-262 | the Reply and Cancel buttons set only the reply target |
| DiscussionPanel.Panel.HandleSubmitComment | src/components/projects/discussion-panel.tsx:94-111 | the comments become `SubmitComment` of the old ones and the draft is cleared when it was posted |
| MembersPanel.RolePermissionsFacts | src/components/projects/members-panel.tsx:147-151 | admins get four distinct permissions and members the first two of them |
| MembersPanel.SendInvite | src/components/projects/members-panel.tsx:139-164 | the member list after `handleSendInvite`; specified by `SendInviteSpec` |
| MembersPanel.SendInviteSpec | src/components/projects/members-panel.tsx:139-164 | an invite without an e-mail changes nothing; otherwise one offline member without avatar, named by the e-mail's part before "@", joined and last active now, is appended with the chosen role's id, name, type and permissions |
| MembersPanel.UpdateRole | src/components/projects/members-panel.tsx:178-199 | the member list after `handleUpdateRole`; specified by `UpdateRoleSpec` and `UpdateRoleAdminCount` |
| MembersPanel.UpdateRoleSpec | src/components/projects/members-panel.tsx:178-199 | only the selected member's role type, name and permissions change, and nothing changes without a selection |
| MembersPanel.OnlineCount | src/components/projects/members-panel.tsx:306 | the "Online Now" stat |
| MembersPanel.OnlineCountSpec | src/components/projects/members-panel.tsx:306 | the online stat is at most the member count and zero exactly when nobody is online |
| MembersPanel.CountOfType | src/components/projects/members-panel.tsx:536-547 | the role badges' counts; related to the admin stat and the member count by `RoleCounts` |
| MembersPanel.AdminCount | src/components/projects/members-panel.tsx:314 | the "Admins" stat; related to the role badges by `RoleCounts` |
| MembersPanel.RoleCounts | src/components/projects/members-panel.tsx:312-547 | the admin stat counts admins and owners, and the admin and member badges' counts plus the owners count every member once; the owner badge is the fixed text "1 member" and is not computed |
| MembersPanel.UpdateRoleAdminCount | src/components/projects/members-panel.tsx:178-199 | making someone an admin never lowers the admin stat, making someone a member never raises it |
| MembersPanel.RemoveMember | src/components/projects/members-panel.tsx:211-214 | the member list after `handleRemoveMember`; specified by `RemoveMemberSpec` |
| MembersPanel.RemoveMemberSpec | src/components/projects/members-panel.tsx:211-214 | a removal drops the members with the id and keeps every other member in order and exactly as often as before |
| MembersPanel.FilteredMembers | src/components/projects/members-panel.tsx:254-258 | the member search; specified by `FilteredMembersSpec` |
| MembersPanel.FilteredMembersSpec | src/components/projects/members-panel.tsx:254-258 | the search keeps exactly the members whose name, e-mail or role name contains the query, case-insensitively, in order, and everyone for the empty query |
| MembersPanel.Panel.constructor | src/components/projects/members-panel.tsx:64-133 | the panel starts with the seeded members, an empty search and the default invite form |
| MembersPanel.Panel.SetSearchQuery | src/components/projects/members-panel.tsx:123 | typing changes only the search |
| MembersPanel.Panel.SetInviteForm | src/components/projects/members-panel.tsx:128-133 | editing changes only the invite form |
| MembersPanel.Panel.HandleSendInvite | src/components/projects/members-panel.tsx:139-164 | the members become `SendInvite` of the old ones, and the form and dialog are reset when it went out |
| MembersPanel.Panel.HandleChangeRole | src/components/projects/members-panel.tsx:170-176 | selects the member with the id, if any, and opens the dialog |
| MembersPanel.Panel.HandleUpdateRole | src/components/projects/members-panel.tsx:178-199 | the members become `UpdateRole` of the old ones, and the selection and dialog are cleared |
| MembersPanel.Panel.HandleRemoveMember | src/components/projects/members-panel.tsx:211-214 | the members become `RemoveMember` of the old ones |
| ResourcesPanel.Classify | src/components/projects/resources-panel.tsx:123-133 | a type starting "image/" is an image, else one containing "pdf" is a PDF, else other |
| ResourcesPanel.ClassifyPrefixFirst | src/components/projects/resources-panel.tsx:123-125 | the image test comes first, so "image/pdf" is an image |
| ResourcesPanel.ClassifySeededTypes | src/components/projects/resources-panel.tsx:77-97 | the seeded PDF and design files classify as PDF and other |
| ResourcesPanel.TypeColor | src/components/projects/resources-panel.tsx:129-133 | green for images, red for PDFs and grey otherwise, by the same prefix-first test as the icon |
| ResourcesPanel.StartedFiles | src/components/projects/resources-panel.tsx:135-151 | each uploaded file becomes an uploading entry at 0% with its name, type, size and fresh id, in order |
| ResourcesPanel.StepFile | src/components/projects/resources-panel.tsx:155-165 | one tick on one file; specified by `ProgressStepSpec` and `UploadCompletes` |
| ResourcesPanel.ProgressStep | src/components/projects/resources-panel.tsx:154-167 | the file list after one upload tick; specified by `ProgressStepSpec` and `ProgressStepInRange` |
| ResourcesPanel.ProgressStepSpec | src/components/projects/resources-panel.tsx:154-167 | a tick advances only the uploading file with the id, completing it at 100 once the sum reaches 100 |
| ResourcesPanel.ProgressStepInRange | src/components/projects/resources-panel.tsx:154-167 | ticks keep every file's progress within 0..100 |
| ResourcesPanel.UploadCompletes | src/components/projects/resources-panel.tsx:154-167 | four ticks that add at least 25 each complete an upload |
| ResourcesPanel.AddLink | src/components/projects/resources-panel.tsx:197-213 | the link list after `handleAddLink`; specified by `AddLinkSpec` |
| ResourcesPanel.AddLinkSpec | src/components/projects/resources-panel.tsx:197-213 | a link without a name or URL is refused; otherwise exactly one link is appended, with the form's name, URL and description, the fresh id, the current user and the clock reading |
| ResourcesPanel.DeleteFile | src/components/projects/resources-panel.tsx:187-190 | the file list after `handleFileDelete`; specified by `DeleteSpec` |
| ResourcesPanel.DeleteLink | src/components/projects/resources-panel.tsx:192-195 | the link list after `handleLinkDelete`; specified by `DeleteSpec` |
| ResourcesPanel.DeleteSpec | src/components/projects/resources-panel.tsx:187-195 | deleting a file or link drops those with the id and keeps every other one in order and exactly as often as before |
| ResourcesPanel.FilteredFiles | src/components/projects/resources-panel.tsx:215-217 | the file search; specified by `FilteredFilesSpec` |
| ResourcesPanel.FilteredFilesSpec | src/components/projects/resources-panel.tsx:215-217 | the file search keeps exactly the files whose name contains the query, case-insensitively, in order |
| ResourcesPanel.FilteredLinks | src/components/projects/resources-panel.tsx:219-222 | the link search; specified by `FilteredLinksSpec` |
| ResourcesPanel.FilteredLinksSpec | src/components/projects/resources-panel.tsx:219-222 | the link search matches on name or description, a link without a description on its name alone |
| ResourcesPanel.Panel.constructor | src/components/projects/resources-panel.tsx:77-111 | the panel starts with the seeded files and link, dated 2024-01-15 and 2024-01-14 in epoch milliseconds, and an empty search |
| ResourcesPanel.Panel.SetSearchQuery | src/components/projects/resources-panel.tsx:109 | typing changes only the search |
| ResourcesPanel.Panel.SetNewLink | src/components/projects/resources-panel.tsx:111 | editing changes only the link form |
| ResourcesPanel.Panel.HandleFileUpload | src/components/projects/resources-panel.tsx:135-151 | no file list changes nothing; otherwise the started files are appended |
| ResourcesPanel.Panel.UploadTick | src/components/projects/resources-panel.tsx:154-167 | the files become `ProgressStep` of the old ones |
| ResourcesPanel.Panel.HandleFileDelete | src/components/projects/resources-panel.tsx:187-190 | the files become `DeleteFile` of the old ones |
| ResourcesPanel.Panel.HandleLinkDelete | src/components/projects/resources-panel.tsx:192-195 | the links become `DeleteLink` of the old ones |
| ResourcesPanel.Panel.HandleAddLink | src/components/projects/resources-panel.tsx:197-213 | the links become `AddLink` of the old ones, and the form and dialog are reset when one was added |
| NotificationCenter.UnreadCount | src/components/notifications/notification-center.tsx:105 | the unread count; specified by `UnreadCountSpec` and `UnreadCountPrepend` |
| NotificationCenter.UnreadCountSpec | src/components/notifications/notification-center.tsx:105 | unread and read notifications add up to all of them, and none are unread exactly when all are read |
| NotificationCenter.UnreadCountPrepend | src/components/notifications/notification-center.tsx:185 | a notification put in front adds one to the unread count exactly when it is unread |
| NotificationCenter.MarkedRead | src/components/notifications/notification-center.tsx:153-157 | the list after `markAsRead`; specified by `MarkAsReadSpec` and `MarkAsReadUnread` |
| NotificationCenter.MarkAsReadSpec | src/components/notifications/notification-center.tsx:153-157 | marking one read changes only the read flag of those with the id, and doing it twice is doing it once |
| NotificationCenter.MarkAsReadUnread | src/components/notifications/notification-center.tsx:153-157 | marking one read lowers the unread count by the unread ones with that id |
| NotificationCenter.AllMarkedRead | src/components/notifications/notification-center.tsx:159-164 | the list after `markAllAsRead`; specified by `MarkAllAsReadSpec` |
| NotificationCenter.MarkAllAsReadSpec | src/components/notifications/notification-center.tsx:159-164 | marking all read sets every read flag, leaves no unread ones and is idempotent |
| NotificationCenter.WithoutNotification | src/components/notifications/notification-center.tsx:166-169 | the list after `deleteNotification`; specified by `DeleteNotificationSpec` |
| NotificationCenter.DeleteNotificationSpec | src/components/notifications/notification-center.tsx:166-169 | a delete drops those with the id, keeps every other one in order and exactly as often as before, and leaves the other unread ones |
| NotificationCenter.NewNotification | src/components/notifications/notification-center.tsx:175-183 | a simulated notification is unread, medium priority, stamped now, and a mention, comment or task notification |
| NotificationCenter.AfterTick | src/components/notifications/notification-center.tsx:172-194 | the list after one interval tick; specified by `TickSpec` |
| NotificationCenter.TickSpec | src/components/notifications/notification-center.tsx:172-194 | a tick with a draw above 0.8 puts exactly one new unread notification in front; otherwise nothing changes |
| NotificationCenter.BadgeOf | src/components/notifications/notification-center.tsx:202-212 | no badge without unread notifications, "99+" above 99, the exact count otherwise |
| NotificationCenter.BadgeAfterUpdates | src/components/notifications/notification-center.tsx:159-212 | marking all read removes the badge, and a new notification always shows one |
| NotificationCenter.InitialUnread | src/components/notifications/notification-center.tsx:47-101 | five seeded notifications, two of them unread, badge 2 |
| NotificationCenter.FormatTimestamp | src/components/notifications/notification-center.tsx:137-151 | `formatTimestamp` on the clock reading; its label is `TimestampLabel` of the floored minutes, compared with the panels' by `TimestampLabelIsTimeAgo` |
| NotificationCenter.InitialLabels | src/components/notifications/notification-center.tsx:53-96 | the first, third and fifth seeded notifications read 5 minutes, 2 hours and 1 day ago |
| NotificationCenter.Center.constructor | src/components/notifications/notification-center.tsx:47-103 | the centre starts with the seeded notifications, closed |
| NotificationCenter.Center.MarkAsRead | src/components/notifications/notification-center.tsx:153-157 | the notifications become `MarkedRead` of the old ones |
| NotificationCenter.Center.MarkAllAsRead | src/components/notifications/notification-center.tsx:159-164 | the notifications become `AllMarkedRead` of the old ones |
| NotificationCenter.Center.DeleteNotification | src/components/notifications/notification-center.tsx:166-169 | the notifications become `WithoutNotification` of the old ones |
| NotificationCenter.Center.Tick | src/components/notifications/notification-center.tsx:172-194 | the notifications become `AfterTick` of the old ones |
| NotificationCenter.Center.SetOpen | src/components/notifications/notification-center.tsx:199 | only the open flag changes |
| Elapsed.FloorDiv | src/components/projects/members-panel.tsx:242 | `Math.floor(a / b)` on integers: the quotient rounded towards minus infinity |
| MembersPanel.FormatTimeAgo | src/components/projects/members-panel.tsx:240-252 | the members panel's `formatTimeAgo`: `TimeAgo` of the floored minutes since the date |
| DiscussionPanel.FormatTimeAgo | src/components/projects/discussion-panel.tsx:113-125 | the discussion panel's `formatTimeAgo`: `TimeAgo` of the floored minutes since the date |
| Elapsed.TimeAgo | src/components/projects/members-panel.tsx:240-252 | the label is just now below one minute, minutes below an hour, hours below a day, and days otherwise, with the floored count |
| Elapsed.TimestampLabel | src/components/notifications/notification-center.tsx:137-151 | the notification centre's buckets on whole minutes; specified by `TimestampLabelIsTimeAgo` |
| Elapsed.TimestampLabelIsTimeAgo | src/components/notifications/notification-center.tsx:137-151 | the notification label agrees with the panels' label below seven days and is a calendar date from then on |
| Elapsed.RelativeTime | src/lib/utils.ts:16-25 | the buckets of `formatRelativeTime` on whole seconds; specified by `RelativeTimeAgreesWithTimeAgo` |
| Elapsed.RelativeTimeAgreesWithTimeAgo | src/lib/utils.ts:16-25 | bucketing on whole seconds gives the same label as bucketing on whole minutes |
| Elapsed.TimeAgoMonotone | src/components/projects/discussion-panel.tsx:113-125 | an older time never gets a label of a smaller bucket |
| Progress.Percent | src/app/dashboard/page.tsx:45-48 | 0 without tasks; otherwise the nearest integer to 100·completed/total, halves rounded up |
| Progress.PercentUnique | src/app/dashboard/page.tsx:45-48 | that rounding has exactly one result |
| Progress.PercentBounds | src/app/projects/page.tsx:69-71 | no tasks or none done reads 0, all done reads 100, consistent counts stay within 100 |
| Progress.PercentMonotone | src/app/dashboard/page.tsx:265-270 | more completed tasks never show a lower percentage |
| Progress.PercentHundred | src/app/dashboard/page.tsx:45-48 | the rounding reads 100 exactly when the open tasks are at most half a percent of the total |
| Dashboard.Reduce | src/app/dashboard/page.tsx:134-136 | the fold never drops below its start value and returns it for no projects |
| Dashboard.TotalTasks | src/app/dashboard/page.tsx:134 | the total task count, a `Reduce` fold; bounded by `ReduceMonotone` and updated by `ReducePrepend` |
| Dashboard.CompletedTasks | src/app/dashboard/page.tsx:135 | the completed-task total, a `Reduce` fold; bounded by `TotalTasks` through `ReduceMonotone` and updated by `ReducePrepend` |
| Dashboard.TotalMembers | src/app/dashboard/page.tsx:136 | the member total, a `Reduce` fold; updated by `ReducePrepend` |
| Dashboard.ReduceShift | src/app/dashboard/page.tsx:134-136 | the fold starting from `a` is `a` plus the fold from 0 |
| Dashboard.ReducePrepend | src/app/dashboard/page.tsx:111-136 | a prepended project adds its own value to every total |
| Dashboard.ReduceMonotone | src/app/dashboard/page.tsx:134-136 | a pointwise smaller field gives a smaller total, so completed tasks never exceed total tasks |
| Dashboard.ActiveProjectsAsWritten | src/app/dashboard/page.tsx:137 | the count of projects whose rounded progress is below 100 (as written) |
| Dashboard.ActiveProjects | src/app/dashboard/page.tsx:137 | the count of projects with some task open, or with no tasks at all |
| Dashboard.CompletedProjects | src/app/dashboard/page.tsx:174 | the corrected "completed" figure: the number of projects minus the corrected active count, which is exactly the projects with every task done (as written, the page subtracts the rounded-progress count of `ActiveProjectsAsWritten`) |
| Dashboard.IncompleteAgreement | src/app/dashboard/page.tsx:45-137 | the rounded test and the open-task test differ exactly when open tasks are at most half a percent |
| Dashboard.ActiveAgreement | src/app/dashboard/page.tsx:137 | below 200 tasks per project both counts agree |
| Dashboard.NearlyDoneCountedCompleted | src/app/dashboard/page.tsx:137 | 999 of 1000 tasks done is counted completed as written and active when corrected |
| Dashboard.CompletionRate | src/app/dashboard/page.tsx:217 | the completion rate of all projects; specified by `CompletionRateBounds` and `ProjectCreatedSpec` |
| Dashboard.CompletionRateBounds | src/app/dashboard/page.tsx:217 | the completion rate is 0 without tasks, within 100 for consistent counts and 100 when every task is done |
| Dashboard.CreatorMember | src/app/dashboard/page.tsx:121 | the creator is the user, with "1" and "You" standing in for a missing or empty id and name |
| Dashboard.WithStats | src/app/dashboard/page.tsx:112-122 | a new project keeps the draft's id, name and description, and has one member, no tasks, no resources, "Just now" and ownership |
| Dashboard.ProjectCreated | src/app/dashboard/page.tsx:111-125 | the project list after `handleProjectCreated`; specified by `ProjectCreatedSpec` |
| Dashboard.ProjectCreatedSpec | src/app/dashboard/page.tsx:111-137 | creating a project prepends it, leaves the task totals and completion rate unchanged, adds one member and one active project |
| Dashboard.ShownAvatars | src/app/dashboard/page.tsx:301 | at most the first three members are shown, in order |
| Dashboard.Overflow | src/app/dashboard/page.tsx:309-311 | a "+n" badge appears exactly above three members and, together with the shown avatars, accounts for every member |
| Dashboard.InitialTotals | src/app/dashboard/page.tsx:52-136 | the seeded projects total 38 tasks, 21 done and 13 members, a 55% completion rate |
| Dashboard.InitialActivity | src/app/dashboard/page.tsx:52-137 | the seeds show two active projects under both tests and one completed |
| Dashboard.Page.constructor | src/app/dashboard/page.tsx:52-109 | the page starts with the seeded projects |
| Dashboard.Page.HandleProjectCreated | src/app/dashboard/page.tsx:111-125 | the projects become `ProjectCreated` of the old ones |
| ProjectsPage.Search | src/app/projects/page.tsx:55-62 | the projects the search shows; specified by `SearchSpec` |
| ProjectsPage.SearchSpec | src/app/projects/page.tsx:55-62 | the search keeps exactly the projects whose name or description contains the query, case-insensitively, in order, and all of them for the empty query |
| ProjectsPage.ListingProgress | src/app/projects/page.tsx:12-71 | the listings read 67%, 28% and 100%, and a listing is completed exactly when it reads 100% |
| ProjectsPage.Page.constructor | src/app/projects/page.tsx:51-53 | the page starts with an empty search showing every project |
| ProjectsPage.Page.HandleSearch | src/app/projects/page.tsx:55-62 | records the query and shows `Search` of it |
| ProjectCard.ProgressPercentage | src/components/projects/project-card.tsx:44-46 | 0 without tasks, 100 with every task done, within 100 for consistent counts |
| ProjectCard.OpenCount | src/components/projects/project-card.tsx:126 | the open figure plus the completed tasks is the task count, and it is negative exactly for inconsistent counts |
| ProjectCard.OpenCountAgreesWithProgress | src/components/projects/project-card.tsx:44-126 | no open tasks reads 100%, anything short of 100% leaves a task open, and nothing done reads 0% |
| Utils.FormatRelativeTime | src/lib/utils.ts:16-25 | `formatRelativeTime` on the two clock readings; specified by `FormatRelativeTimeSpec` |
| Utils.FormatRelativeTimeSpec | src/lib/utils.ts:16-25 | the label buckets whole seconds at 60, 3600 and 86400, any future date is just now, and the label equals the panels' minute-based one |
| Utils.SliceEnd | src/lib/utils.ts:29 | `slice`'s end index: clamped to the string, and counted from the back when negative |
| Utils.TruncateText | src/lib/utils.ts:27-30 | a text within the limit is returned as is; a longer one keeps its first `maxLength` characters and gains "...", `maxLength + 3` in all |
| Utils.TruncateIdempotent | src/lib/utils.ts:27-30 | truncating twice with the same limit is truncating once |
| Utils.TruncateTextDefault | src/lib/utils.ts:27-30 | with the default limit of 50 a text up to 50 long is kept and a longer one becomes its first 50 characters and "...", never longer than 53 |
| Utils.JoinedHeads | src/lib/utils.ts:33-36 | joining the words' first characters skips the empty words |
| Utils.GenerateInitials | src/lib/utils.ts:32-39 | `generateInitials`; specified by `GenerateInitialsSpec` |
| Utils.GenerateInitialsSpec | src/lib/utils.ts:32-39 | the initials are the first two uppercased first letters of the non-empty words, never a space |
| Constants.PermissionsDistinct | src/lib/constants.ts:18-51 | seventeen distinct permissions, the project manager holding all of them |
| Constants.RolesNested | src/lib/constants.ts:47-68 | the viewer permissions are strictly within the member permissions, and those strictly within the project manager's |
| Constants.TaskStatusesMatchBoard | src/lib/constants.ts:70-74 | the three task statuses are distinct and are exactly the board's column ids |
| Constants.UserRolesDistinct | src/lib/constants.ts:76-79 | two distinct user roles |
| Validations.LoginIssues | src/lib/validations/index.ts:5-8 | the e-mail fails the format check or the password is shorter than 8, field by field |
| Validations.RegisterIssues | src/lib/validations/index.ts:10-18 | a name under 2, a bad e-mail, a password under 8, or a confirmation that differs, field by field |
| Validations.ResetPasswordIssues | src/lib/validations/index.ts:20-22 | accepted exactly for a well-formed e-mail |
| Validations.NewPasswordIssues | src/lib/validations/index.ts:24-30 | a password under 8 or a confirmation that differs |
| Validations.ChangePasswordIssues | src/lib/validations/index.ts:88-95 | an empty current password, a new one under 8, or a confirmation that differs |
| Validations.RegisteredPasswordPassesLogin | src/lib/validations/index.ts:5-18 | every accepted registration has a password the login schema accepts, typed the same twice |
| Validations.ChangedPasswordIsNewPassword | src/lib/validations/index.ts:24-95 | every accepted password change passes the new-password schema |
| Validations.ProjectIssues | src/lib/validations/index.ts:33-41 | the name is flagged exactly outside 1 to 100 and the description exactly outside 1 to 500 code units, so the form is accepted exactly when both are within |
| Validations.CreateTaskIssues | src/lib/validations/index.ts:44-49 | accepted exactly for a title of 1 to 255 characters |
| Validations.UpdateTaskIssues | src/lib/validations/index.ts:51-57 | a title outside 1 to 255 or a status that is not a task status, field by field |
| Validations.UpdateTaskStatusIsColumn | src/lib/validations/index.ts:51-57 | the accepted statuses are exactly the board's columns |
| Validations.CommentIssues | src/lib/validations/index.ts:60-62 | accepted exactly for 1 to 1000 characters |
| Validations.LinkIssues | src/lib/validations/index.ts:65-69 | a title outside 1 to 255, a bad URL, or a given description over 500, field by field |
| Validations.InviteMemberIssues | src/lib/validations/index.ts:72-75 | a bad e-mail or an empty role id, field by field |
| Validations.CreateRoleIssues | src/lib/validations/index.ts:78-81 | a name outside 1 to 100 or no permissions, field by field |
| Validations.DefaultRolesValid | src/lib/constants.ts:47-68 | each of the three default roles passes the create-role schema |
| Validations.UpdateProfileIssues | src/lib/validations/index.ts:84-86 | accepted exactly for a name of 2 to 100 characters |
| Auth.RoleValue | src/lib/auth.ts:8 | a user's role is one of the user-role constants, "admin" exactly for admins |
| Auth.SeedEmailsUnique | src/lib/auth.ts:13-35 | the seeded users have distinct e-mails |
| Text.JsLength | src/lib/auth.ts:46 | JavaScript's `length` in UTF-16 code units: between the number of characters and twice it, zero only for the empty string |
| Auth.SignInResult | src/lib/auth.ts:38-51 | sign-in finds a user exactly when the password has at least 8 characters and the e-mail exists, and then the first user with it |
| Auth.SignInFindsOwner | src/lib/auth.ts:38-51 | with unique e-mails, sign-in with a long enough password finds the e-mail's owner |
| Auth.NewUser | src/lib/auth.ts:64-70 | a signed-up user has the given name and e-mail and the "user" role |
| Auth.SignedUp | src/lib/auth.ts:53-74 | the user table after `signUp`; specified by `SignUpSpec` |
| Auth.SignUpSpec | src/lib/auth.ts:53-74 | sign-up keeps e-mails unique, appends the new user for a free e-mail so it can then sign in, and changes nothing for a taken one |
| Auth.DemoAccountsAsWritten | src/lib/auth.ts:94-107 | the demo accounts as declared; `DemoUserCannotSignIn` shows the user account fails |
| Auth.DemoUserCannotSignIn | src/lib/auth.ts:101-106 | the declared user demo account fails the login schema and finds nobody at sign-in |
| Auth.DemoAccounts | src/lib/auth.ts:94-107 | the corrected demo accounts; `DemoAccountsSignIn` shows every one signs in |
| Auth.DemoAccountsSignIn | src/lib/auth.ts:94-107 | every corrected demo account meets the login schema's password rule, passes the whole schema when the e-mail check (a parameter) accepts its address, and signs in as the seeded user of that name and role |
| Auth.AstralPasswordSignsIn | src/lib/auth.ts:46 | four characters outside the Basic Multilingual Plane are eight code units, so they meet both the sign-in and the login schema's length rule |
| Auth.UserTable.constructor | src/lib/auth.ts:13-35 | the table starts with the seeded users, e-mails unique |
| Auth.UserTable.SignIn | src/lib/auth.ts:38-51 | returns `SignInResult` on the table and changes nothing |
| Auth.UserTable.SignUp | src/lib/auth.ts:53-74 | the table becomes `SignedUp` of the old one, "already exists" exactly for a taken e-mail, and e-mails stay unique |

## Left out

- `formatFileSize` (resources panel): it works on floating-point logarithms and `toFixed`; only its callers' data is modelled.
- Progress.Percent: rounds the exact rational. JavaScript rounds the binary floating-point product, so a few exact halves can land one lower (29 of 200 reads 14 there).
- Utils.TruncateText: counts and cuts Unicode scalar values. JavaScript's `length` and `slice` act on UTF-16 code units, so a text holding characters outside the Basic Multilingual Plane is cut at a different place there, possibly inside a surrogate pair.
- Utils.SliceEnd: the end index counts Unicode scalar values, not UTF-16 code units; the two agree on Basic Multilingual Plane text.
- Utils.GenerateInitials: takes each word's first Unicode scalar value. `charAt(0)` takes the first code unit, which for a character outside the Basic Multilingual Plane is half a surrogate pair.
- ResourcesPanel.ProgressStep: adds a given increment as an exact real. The source adds `Math.random() * 30` in binary floating point, so its sums carry rounding; the model's bounds 0..100 and completion at 100 do not depend on it.
- Calendar dates (`toLocaleDateString`, `formatDate`) are the `OnDate` label only; no date text is produced.
- The labels' text ("5m ago", "99+") is not produced: labels and badges are datatypes.
- Case mapping covers ASCII letters only; JavaScript's full Unicode mapping is not modelled.
- The library's e-mail and URL format rules are parameters of the schemas.
- The clock, `Date.now()` ids, `Math.random()` ids and draws, and the 30-second and 500-millisecond timers are parameters: a tick is one method call.
- The simulated network delays (`setTimeout` promises) are not modelled; the loading flag is set and cleared within one call.
- Rendering, toasts, icons, colours, dialogs' visibility beyond the flags kept, and the drag sensors are left out.
- `getCurrentUser` and `signOut` read and write `localStorage`, which is not part of this model.
- `src/components/projects/create-project-modal.tsx` is not part of this model: the dashboard takes its draft as given.
- The dashboard's avatar-fallback initials and the panels' `split(" ").map(n => n[0]).join("")` initials are not modelled separately; `Utils.GenerateInitials` covers the shared helper.
- `handleProjectAction` and the projects page's `handleProjectCreated` only log to the console.
- The project card's `createdAt` date is not modelled.
- The reply box under a comment has no submit handler of its own, so replies are only opened and closed (`DiscussionPanel.Panel.SetReplyingTo`).

## Findings

| source | as written | input that shows it | evidently intended | confidence | as-written member | corrected member |
|---|---|---|---|---|---|---|
| src/components/projects/discussion-panel.tsx:129-136 | every part starting with "@" is highlighted, including the plain text between mentions | the comment "@ everyone" | highlight only the `@word` parts the split captured | not executed | DiscussionPanel.RenderMentionsAsWritten | DiscussionPanel.RenderMentions |
| src/components/projects/task-modal.tsx:67-74 | the form is initialised once, at mount, so reopening the dialog on another task keeps the old form | opening the mounted dialog on the first seeded task after a create | reset the form from the task whenever the dialog opens | not executed | TaskModal.Dialog.ReceiveProps | TaskModal.Dialog.Open |
| src/app/dashboard/page.tsx:137 | a project counts as active only while its rounded progress is below 100 | a project with 999 of 1000 tasks done | a project is active while some task is open | not executed | Dashboard.ActiveProjectsAsWritten | Dashboard.ActiveProjects |
| src/lib/auth.ts:101-106 | the user demo password "user123" has seven characters, below the login schema's and sign-in's minimum of eight | filling in and submitting the user demo account | a demo password that signs in | not executed | Auth.DemoAccountsAsWritten | Auth.DemoAccounts |
