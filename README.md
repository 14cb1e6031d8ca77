# MpenziMatch admin portal: a Dafny model of the moderation screens

This project models the state logic of the MpenziMatch dating-app admin
portal. The portal is a set of React screens; the model covers six of them.

- **Users**: the filter bar (status, verification, gender, age range, free-text
  search), the selection of accounts, and the single and bulk moderation
  actions (ban, suspend, delete, verify).
- **Media**: the moderation queue of photos and videos. It has five filters,
  approve/reject/delete actions both single and in bulk, marking an uploader
  as verified, and the status counters.
- **Messages**: the conversation list filter, deleting a message, blocking a
  conversation, the monitoring counters and the AI-detection counters that
  look for words in a message's flag reason.
- **Notifications**: the compose form, the recipient estimate, sending now
  or scheduled, cancelling a scheduled notification, and the integer stats.
- **Dashboard**: resolving a system alert, the active-alert badge, and the
  icon and colour of each alert type.
- **Analytics**: the file name and the CSV text of a report download.

Each screen is one module.

- The values the screen computes (the filtered lists, the record rewrites,
  the counters, the CSV text) are pure functions.
- The screen's state is a class with `seq` fields. Each event handler is a
  method whose postcondition gives the whole new state in terms of those
  functions.
- Lemmas state what the screens promise about those functions: filters that
  select exactly the matching records, idempotent actions, counters that
  move by a known amount, and CSV text that splits back into its lines and
  fields.

Three modules are shared:

- `Seqs`: filter, map, sum, find and the subsequence relation, with their
  algebra.
- `Text`: ASCII lower-casing, `includes`, `join`/`split` on one character,
  and decimal rendering of integers.
- `Selection`: the row checkbox and the header checkbox used by the Users and
  Media screens.

Each handler is modelled as the synchronous state change it makes once its
simulated delay is over. React's filter effect, which re-runs the filter
whenever the list or the filters change, is the separate method
`RecomputeView`. `SetFilters` is that effect following a change in the
filter bar. `ViewInSync` says the visible list is the filter of the full
list. The constructors, `RecomputeView` and `SetFilters` establish it. Every
other change to the users or the media list is followed by
`RecomputeView`, as in React. A bulk or single delete also removes the
deleted ids from the visible list directly, and `DeleteKeepsViewInSync`
proves that this gives the same view as re-running the filter.

The model follows the code in three places where a plainer reading of the
screens would suggest something else:

- **Select all.** The header checkbox compares only the lengths of the
  selection and the visible list. Clicking it twice restores an empty
  selection or a full one, but clears any other selection.
- **Age range.** The age range is always applied. The view with every other
  criterion at "all" equals the full list only when every age lies within
  the bounds.
- **Flag-reason counters.** The AI-detection counters match case-sensitively,
  so the reason "Financial scam pattern detected" is not counted as a
  financial scam pattern.

## Model

| member | source | states |
|---|---|---|
| Seqs.Filter | app/users/page.tsx:176 | `Array.filter`: the result holds only elements of the input that pass the predicate, every passing element is kept, and it is no longer than the input |
| Seqs.FilterIsSubsequence | app/users/page.tsx:172-204 | a filtered list keeps the survivors in their original order (it is a subsequence) |
| Seqs.FilterFilter | app/users/page.tsx:172-204 | two filters in a row are one filter by the conjunction, which is how the chained `filtered = filtered.filter(...)` steps compose |
| Seqs.FilterCommute | app/users/page.tsx:280-281 | the order of two filters does not matter |
| Seqs.FilterPartition | app/users/page.tsx:280 | the elements kept by a predicate and by its negation together number the whole list |
| Seqs.Map | app/users/page.tsx:306 | `Array.map`: same length, each element the image of the one at the same index |
| Seqs.MapWhere | app/users/page.tsx:242-244 | the `prev.map(x => cond ? {...x, change} : x)` rewrite: changed exactly where the condition holds, the same length and order |
| Seqs.MapWhereIdempotent | app/users/page.tsx:242-244 | a conditional rewrite that is stable under itself is idempotent |
| Seqs.Find | app/users/page.tsx:237 | `Array.find`: a result exists exactly when some element passes, and it is the first one that passes |
| Seqs.SumAppend | app/messages/page.tsx:379 | the `reduce` sum over two lists together is the sum of their sums |
| Seqs.SumNonNegative | app/messages/page.tsx:379 | a `reduce` sum of non-negative terms is non-negative, and zero exactly when every term is zero |
| Seqs.FilterEmpty | app/dashboard/page.tsx:545 | a filter count is zero exactly when no element passes |
| Seqs.FilterDisjoint | app/notifications/page.tsx:204-205 | two filters that never both hold count at most the whole list between them |
| Text.Lower | app/users/page.tsx:194 | `toLowerCase` on ASCII: same length, each letter lowered and every other character kept |
| Text.LowerIdempotent | app/users/page.tsx:194-200 | lowering twice is lowering once |
| Text.ContainsAt | app/users/page.tsx:195-200 | `includes` holds exactly when the needle occurs at some position |
| Text.SplitJoin | app/analytics/page.tsx:185-186 | splitting at a separator undoes `join` with it when no piece holds the separator |
| Text.SplitCount | app/analytics/page.tsx:186 | a string splits into one more piece than it has separators |
| Text.BeforeIsFirstPiece | app/analytics/page.tsx:177 | `split('T')[0]` is the text before the first 'T' |
| Text.IntToString | app/analytics/page.tsx:186 | `${n}` for an integer: non-empty, only digits and a leading '-' exactly when negative |
| Text.NatToStringRoundTrip | app/analytics/page.tsx:186 | reading the rendered digits back gives the number |
| Text.IntToStringHasNoSeparators | app/analytics/page.tsx:186 | a rendered integer holds no ',' and no newline |
| Selection.Toggle | app/users/page.tsx:294-300 | the row checkbox flips the id's membership and no other id's; an unselected id is appended at the end |
| Selection.ToggleTwiceRestores | app/media/page.tsx:353-359 | ticking an unticked row and unticking it again restores the selection exactly |
| Selection.SelectAll | app/users/page.tsx:302-308 | the header checkbox clears a selection as long as the view, else selects the view's ids in view order |
| Selection.SelectAllTwice | app/media/page.tsx:361-367 | two clicks restore an empty or a full selection; any other non-empty selection of a different length ends up cleared |
| Selection.SelectAllIgnoresIds | app/users/page.tsx:303 | a selection of the view's length but other ids is cleared, not completed |
| Users.FilterUsers | app/users/page.tsx:172-204 | the filter effect never lengthens the list |
| Users.ByStatusIsFilter | app/users/page.tsx:175-177 | the status step keeps exactly the users whose status is the chosen one, or all users for "all" |
| Users.ByVerifiedIsFilter | app/users/page.tsx:179-183 | the verification step keeps verified users for "verified", unverified ones for any other value but "all" |
| Users.ByGenderIsFilter | app/users/page.tsx:185-187 | the gender step keeps exactly the users of the chosen gender, or all for "all" |
| Users.ByAgeIsFilter | app/users/page.tsx:189-191 | the age step keeps exactly the users within the inclusive range |
| Users.BySearchIsFilter | app/users/page.tsx:193-201 | a non-empty search keeps users whose lower-cased name, email, location or an interest contains the lower-cased query |
| Users.FilterUsersIsOneFilter | app/users/page.tsx:172-204 | the chain of steps equals one filter by the conjunction of all criteria |
| Users.FilterUsersSound | app/users/page.tsx:172-204 | the view is an order-preserving subsequence, each shown user meets every criterion, and every user meeting them all is shown |
| Users.DefaultView | app/users/page.tsx:46-53 | under the starting filters the view is exactly the users aged 18 to 80 inclusive |
| Users.NoCriteriaView | app/users/page.tsx:189-191 | with every other criterion off, the view is the whole list if and only if every age lies within the range |
| Users.FilterDropsOutOfRange | app/users/page.tsx:189-191 | a user failing any criterion, such as an age outside the range, makes the view strictly shorter than the list |
| Users.SearchIsCaseInsensitive | app/users/page.tsx:193-200 | the queries "JOHN" and "john" both find "Sarah Johnson" |
| Users.AgeOnlyView | app/users/page.tsx:172-204 | with status, verification and gender at "all" and no search, the view is exactly the users within the inclusive age range, in list order |
| Users.AgeRangeScenario | app/users/page.tsx:189-191 | the range 25..30 over ages 22, 28, 31, 25 shows the users aged 28 and 25, in that order |
| Users.SetStatusOf | app/users/page.tsx:269-277 | the users with a listed id get the new status; the others, the length and the order are unchanged |
| Users.SetVerifiedOf | app/users/page.tsx:283-286 | the users with a listed id become verified; nothing else changes |
| Users.RemoveUsers | app/users/page.tsx:280 | the users with a listed id are gone and every other user is kept |
| Users.RemoveUsersCount | app/users/page.tsx:280 | deleting keeps the survivors in order and removes exactly as many users as carry a listed id |
| Users.ParseBulkAction | app/users/page.tsx:268-288 | the `switch` picks the ban, suspend, delete or verify case exactly for that string and no case for any other |
| Users.BulkUpdate | app/users/page.tsx:268-289 | ban, suspend and verify change only the selected users' status or flag; delete drops exactly the selected users; any other action changes nothing |
| Users.BulkUpdateIdempotent | app/users/page.tsx:268-289 | applying any bulk action twice is applying it once |
| Users.DeleteKeepsViewInSync | app/users/page.tsx:280-281 | removing the selected ids from the visible list gives what re-running the filter over the shrunken list would give |
| Users.ResolveTarget | app/users/page.tsx:237-238 | a truthy id is looked up in the list (a result exactly when some user has it); no id or the id 0 falls back to the user whose modal is open |
| Users.SingleUpdate | app/users/page.tsx:240-259 | ban and suspend change only the target's status, delete removes only the target, and "reset" leaves the list as it was |
| Users.RowAction | app/users/page.tsx:778 | the row offers "ban" exactly for a suspended user and "suspend" exactly for any other |
| Users.RowActionEscalates | app/users/page.tsx:240-249 | taking the row's action (line 778) bans a suspended user and suspends any other, after which the row offers "ban" |
| Users.StatusColor | app/users/page.tsx:206-219 | each status's badge colour is a Tailwind background class ("bg-…"); that the four are distinct is `StatusBadgesDistinct` |
| Users.StatusIcon | app/users/page.tsx:221-234 | each status's badge icon is a single character; that the four are distinct is `StatusBadgesDistinct` |
| Users.StatusBadgesDistinct | app/users/page.tsx:206-234 | two statuses get the same badge colour, and the same badge icon, exactly when they are the same status |
| Users.UsersScreen.constructor | app/users/page.tsx:36-53 | the screen starts with empty lists, no selection, no chosen action and the default filters, and its view is in step with them |
| Users.UsersScreen.Load | app/users/page.tsx:163-164 | the loaded accounts become both the full and the visible list |
| Users.UsersScreen.RecomputeView | app/users/page.tsx:172-204 | the effect makes the visible list the filter of the full list; nothing else changes |
| Users.UsersScreen.SetFilters | app/users/page.tsx:172-204 | a filter change followed by the effect leaves the view in step with the new filters |
| Users.UsersScreen.ChooseFromRow | app/users/page.tsx:766-782 | a row's buttons select that user and choose "reset" or the row's escalation ("ban" for a suspended user, "suspend" for any other); nothing else changes |
| Users.UsersScreen.ViewUser | app/users/page.tsx:758-762 | the "View" button selects that user for the profile modal and keeps the chosen action; nothing else changes |
| Users.UsersScreen.ChooseFromModal | app/users/page.tsx:436-457 | the modal's buttons choose one of "reset", "suspend" or "ban" for the user already selected; nothing else changes |
| Users.UsersScreen.HandleUserAction | app/users/page.tsx:236-263 | no target changes nothing; otherwise the list is the single update of the target, a delete also drops it from the view, and the chosen action is cleared |
| Users.UsersScreen.HandleBulkAction | app/users/page.tsx:265-292 | without an action or a selection nothing changes; otherwise the list becomes the bulk update for the parsed action, a delete also removes the selected ids from the view, and the selection and action are reset even for an unrecognised action |
| Users.UsersScreen.SetBulkAction | app/users/page.tsx:634 | the drop-down sets the chosen bulk action only |
| Users.UsersScreen.ToggleUserSelection | app/users/page.tsx:294-300 | the selection becomes its toggle by that id; nothing else changes |
| Users.UsersScreen.SelectAllUsers | app/users/page.tsx:302-308 | the selection becomes the header-checkbox result over the visible ids |
| Media.FilterMedia | app/media/page.tsx:220-250 | the filter effect never lengthens the list |
| Media.ByStatusIsFilter | app/media/page.tsx:223-225 | the status step keeps exactly the items with the chosen status, or all |
| Media.ByTypeIsFilter | app/media/page.tsx:227-229 | the type step keeps exactly the images or the videos, or all |
| Media.ByVerificationIsFilter | app/media/page.tsx:231-233 | the verification step keeps exactly the items whose uploader has the chosen status, or all |
| Media.ByReportsIsFilter | app/media/page.tsx:235-241 | "reported" keeps items with a positive report count (missing counts as 0), "none" keeps those with none, any other value keeps all |
| Media.ByPictureIsFilter | app/media/page.tsx:243-247 | "profile" keeps profile pictures, any other value but "all" keeps the rest |
| Media.FilterMediaIsOneFilter | app/media/page.tsx:220-250 | the chain equals one filter by the conjunction of the criteria |
| Media.FilterMediaSound | app/media/page.tsx:220-250 | the view is an order-preserving subsequence holding exactly the matching items |
| Media.DateRangeIgnored | app/media/page.tsx:220-250 | the date-range choice never changes the view |
| Media.DefaultShowsAll | app/media/page.tsx:50-57 | the starting filters show every item |
| Media.OddFilterValues | app/media/page.tsx:235-247 | an unrecognised reports value restricts nothing and an unrecognised picture value keeps non-profile items |
| Media.Approve | app/media/page.tsx:301-306 | the item with that id becomes approved and keeps any rejection reason; nothing else changes |
| Media.Reject | app/media/page.tsx:308-313 | the item with that id becomes rejected with the given reason; nothing else changes |
| Media.RemoveItems | app/media/page.tsx:330 | the items with a listed id are gone and every other item is kept |
| Media.ParseBulkAction | app/media/page.tsx:318-333 | the `switch` picks the approve, reject or delete case exactly for that string and no case for any other |
| Media.BulkUpdate | app/media/page.tsx:315-337 | approve and reject (reason "Bulk rejection") change only the selected items; delete drops exactly them; any other action changes nothing |
| Media.BulkUpdateIdempotent | app/media/page.tsx:315-337 | any bulk action applied twice equals it applied once |
| Media.DeleteKeepsViewInSync | app/media/page.tsx:330-331 | removing the selected ids from the visible list gives what re-running the filter over the shrunken list would give |
| Media.VerifyUser | app/media/page.tsx:400-404 | every item of that uploader shows the uploader verified; nothing else changes |
| Media.CountStatus | app/media/page.tsx:763-778 | a status card is at most the number of items, and zero exactly when no item has that status |
| Media.VerifiedCount | app/media/page.tsx:779-782 | "Verified Users" is at most the number of items, and zero exactly when no uploader is verified |
| Media.ReportedCount | app/media/page.tsx:784-788 | "Reported Media" is at most the number of items, and zero exactly when no item has a positive report count |
| Media.StatusCountsSum | app/media/page.tsx:763-775 | the pending, flagged, approved and rejected cards add up to the number of items |
| Media.VerifyUserCount | app/media/page.tsx:779-781 | verifying an uploader raises the "Verified Users" card by the number of that uploader's items not yet verified |
| Media.ApproveScenario | app/media/page.tsx:315-322 | with items 1 and 3 pending and 2 approved, the "pending" filter shows 1 and 3, and a bulk approve of them leaves 2 as it was |
| Media.MediaScreen.constructor | app/media/page.tsx:41-57 | the screen starts empty with the default filters, and its view is in step with them |
| Media.MediaScreen.Load | app/media/page.tsx:211-212 | the loaded items become both the full and the visible list |
| Media.MediaScreen.RecomputeView | app/media/page.tsx:220-250 | the effect puts the view in step with the list and the filters |
| Media.MediaScreen.SetFilters | app/media/page.tsx:220-250 | a filter change followed by the effect leaves the view in step |
| Media.MediaScreen.HandleApprove | app/media/page.tsx:301-306 | the list becomes its approval of that id |
| Media.MediaScreen.HandleReject | app/media/page.tsx:308-313 | the list becomes its rejection of that id with the reason |
| Media.MediaScreen.HandleBulkAction | app/media/page.tsx:315-337 | without an action or a selection nothing changes; otherwise the list becomes the bulk update for the parsed action, a delete also removes the selected ids from the view, and the selection and action are reset |
| Media.MediaScreen.SetBulkAction | app/media/page.tsx:742 | the drop-down sets the chosen bulk action only |
| Media.MediaScreen.ToggleItemSelection | app/media/page.tsx:353-359 | the selection becomes its toggle by that id |
| Media.MediaScreen.SelectAllItems | app/media/page.tsx:361-367 | the selection becomes the header-checkbox result over the visible ids |
| Media.MediaScreen.HandleVerifyUser | app/media/page.tsx:400-404 | the list becomes its verification of that uploader |
| Messages.FilteredConversations | app/messages/page.tsx:253-257 | the conversation list never grows |
| Messages.FilteredConversationsSound | app/messages/page.tsx:253-257 | the list is an order-preserving subsequence; a chosen status is required, the "flagged" severity drops conversations without flagged messages, and every conversation meeting both is shown |
| Messages.UnfilteredShowsAll | app/messages/page.tsx:47-51 | with status "all" and a severity other than "flagged" every conversation is shown, whatever the date range |
| Messages.WithoutMessage | app/messages/page.tsx:238-240 | every message with that id is gone and every other message is kept |
| Messages.DeleteMessageProperties | app/messages/page.tsx:238-240 | deleting keeps the others in order, removes exactly the messages with that id, and is idempotent |
| Messages.WithBlocked | app/messages/page.tsx:242-246 | the conversation with that id becomes blocked; the others, the length and the order are unchanged |
| Messages.BlockConversationIdempotent | app/messages/page.tsx:242-246 | blocking twice is blocking once |
| Messages.BlockingCounters | app/messages/page.tsx:377-386 | blocking raises "Blocked Chats" by the matching conversations not yet blocked and leaves "Flagged Today" as it was |
| Messages.FindConversation | app/messages/page.tsx:113 | opening selects the first conversation with that id, or none when no conversation has it |
| Messages.FlaggedToday | app/messages/page.tsx:376-380 | "Flagged Today" is non-negative when every conversation's flagged count is, and zero exactly when none has a flag |
| Messages.BlockedChats | app/messages/page.tsx:382-386 | "Blocked Chats" is at most the number of conversations, and zero exactly when none is blocked |
| Messages.FlagReasonCount | app/messages/page.tsx:521-533 | each counter is at most the number of messages, and zero exactly when no message's flag reason contains the text |
| Messages.FlagReasonCountBounds | app/messages/page.tsx:521-533 | messages without a flag reason are never counted, and deleting a message never raises a counter |
| Messages.NotContainedWithoutChar | app/messages/page.tsx:527 | a needle holding a character the text lacks is not found |
| Messages.DetectionIsCaseSensitive | app/messages/page.tsx:521-527 | "Request for personal contact information" counts as a personal-information request, while "Financial scam pattern detected" is missed by 'financial' and would be found by "Financial" |
| Messages.MessagesScreen.constructor | app/messages/page.tsx:42-51 | the screen starts empty with the default filters |
| Messages.MessagesScreen.Load | app/messages/page.tsx:104 | the loaded conversations replace the list |
| Messages.MessagesScreen.OpenConversation | app/messages/page.tsx:111-192 | the first conversation with the id is selected (or none) and the loaded messages are shown |
| Messages.MessagesScreen.SetFilters | app/messages/page.tsx:47-51 | the filters are replaced and nothing else changes |
| Messages.MessagesScreen.DeleteMessage | app/messages/page.tsx:238-240 | the messages lose every message with that id |
| Messages.MessagesScreen.BlockConversation | app/messages/page.tsx:242-247 | the conversation is blocked, "Blocked Chats" does not fall, and the open conversation's header keeps its old status |
| Notifications.EstimatedRecipients | app/notifications/page.tsx:287-299 | 2500 for everyone; the user count of the first segment with the chosen id, or 0 when none has it; the number of listed ids for specific users |
| Notifications.DefaultSegmentEstimates | app/notifications/page.tsx:64-107 | with the screen's segments every segment id the select or a card can store estimates its own count: active 1250, inactive 890, new 340, premium 156, kenya 980, international 670; any other id estimates 0 |
| Notifications.InitialStats | app/notifications/page.tsx:201-205 | the scheduled and failed counts together never exceed the number of notifications, and the sent and opened totals are non-negative when every notification's are |
| Notifications.InitialStatsAppend | app/notifications/page.tsx:201-205 | the load-time stats of two lists together are the sums of their stats |
| Notifications.InitialStatsSingle | app/notifications/page.tsx:201-205 | one notification contributes its recipients, its opens, and one to the scheduled or the failed count by its status |
| Notifications.NewNotification | app/notifications/page.tsx:240-257 | the new notification carries the given id, the form's title and message, status scheduled exactly when scheduled and sent otherwise, a send time only when sent, no opens, and the estimate as its recipients |
| Notifications.SendStats | app/notifications/page.tsx:264-276 | an immediate send adds its recipients to the total sent, a scheduled one adds one to the scheduled count; opens and failures are unchanged |
| Notifications.SendKeepsStatsInSync | app/notifications/page.tsx:264-276 | stats equal to the load-time stats of the list stay equal after an immediate send; after a scheduled send they stay equal only when the estimate is 0 |
| Notifications.WithoutNotification | app/notifications/page.tsx:317 | every notification with that id is gone and every other one is kept |
| Notifications.WithoutTheOnly | app/notifications/page.tsx:317 | removing by id from a list where one notification carries that id leaves the rest in order |
| Notifications.CancelKeepsStatsInSync | app/notifications/page.tsx:316-319 | cancelling the one scheduled notification with that id, with no recipients or opens, keeps the stats equal to the load-time stats |
| Notifications.IdCollisionAfterCancel | app/notifications/page.tsx:241 | with ids 1 to 5, cancelling 2 and sending gives a second notification with id 5, and cancelling 5 then removes both |
| Notifications.NotificationsScreen.constructor | app/notifications/page.tsx:44-115 | the screen starts with no notifications, the default form and segments, and zero stats |
| Notifications.NotificationsScreen.Load | app/notifications/page.tsx:198-213 | the loaded list and the stats computed from it |
| Notifications.NotificationsScreen.EditForm | app/notifications/page.tsx:221-226 | the form becomes the edited one, whatever segment id it holds |
| Notifications.NotificationsScreen.SendToSegment | app/notifications/page.tsx:808-813 | a segment card's button makes the form target that segment by its id and keeps every other field |
| Notifications.NotificationsScreen.SendNotification | app/notifications/page.tsx:228-285 | a form without a title or a message is refused and nothing changes; otherwise the new notification goes first with id length+1, the form is reset and the stats updated, and an immediate send keeps stats in step with the list |
| Notifications.NotificationsScreen.ResetForm | app/notifications/page.tsx:301-314 | the form returns to its defaults: empty texts, target "all", segment "active", not scheduled, platform "all", no user ids |
| Notifications.NotificationsScreen.CancelScheduledNotification | app/notifications/page.tsx:316-319 | every notification with the id goes and the scheduled count drops by one, whether or not anything was removed |
| Dashboard.WithResolved | app/dashboard/page.tsx:192-196 | every alert with that id becomes resolved; the others, the length and the order are unchanged |
| Dashboard.ResolveIdempotent | app/dashboard/page.tsx:192-196 | resolving twice is resolving once |
| Dashboard.ActiveCount | app/dashboard/page.tsx:545 | the "Active" badge is at most the number of alerts, and zero exactly when every alert is resolved |
| Dashboard.ResolveLowersActiveCount | app/dashboard/page.tsx:545 | resolving lowers the "Active" badge by exactly the unresolved alerts with that id, so never raises it |
| Dashboard.ResolveFromButton | app/dashboard/page.tsx:572-579 | the button, shown only on unresolved alerts, lowers the badge by at least one and disappears from every alert with that id |
| Dashboard.AlertIcon | app/dashboard/page.tsx:162-175 | each alert type's icon is a single character; that the four are distinct is `AlertStylesDistinct` |
| Dashboard.AlertColor | app/dashboard/page.tsx:177-190 | each alert type's style is a Tailwind border class ("border-…"); that the four are distinct is `AlertStylesDistinct` |
| Dashboard.AlertStylesDistinct | app/dashboard/page.tsx:162-190 | the icon and the colour of two alert types are equal exactly when the types are |
| Dashboard.DashboardScreen.constructor | app/dashboard/page.tsx:72 | the alert list starts empty |
| Dashboard.DashboardScreen.Load | app/dashboard/page.tsx:110-143 | the loaded alerts replace the list |
| Dashboard.DashboardScreen.ResolveAlert | app/dashboard/page.tsx:192-196 | the list becomes its resolution of that id and the badge does not rise |
| Analytics.ReportFilename | app/analytics/page.tsx:176-177 | the file name starts with "mpenzimatch-" and the report type, then "-report-", and ends in ".csv" |
| Analytics.CsvContent | app/analytics/page.tsx:180-206 | every export, whatever the report type, opens with that type's header line and a newline; any unnamed type falls back to the summary header |
| Analytics.ShareLine | app/analytics/page.tsx:186 | a share line opens with the label and a comma and ends with '%'; its fields are `ShareLineFields` |
| Analytics.PlanLine | app/analytics/page.tsx:196 | a plan line opens with the plan name and a comma; its fields are `PlanLineFields` |
| Analytics.MetricLine | app/analytics/page.tsx:190-192 | a metric line opens with the metric name and a comma and ends with '%'; the three lines are `EngagementExportLines` |
| Analytics.ListExport | app/analytics/page.tsx:185-200 | a list export opens with its header and a newline |
| Analytics.EngagementCsv | app/analytics/page.tsx:188-192 | the "engagement" export opens with its header and a newline |
| Analytics.SummaryCsv | app/analytics/page.tsx:201-206 | the summary export opens with its header and a newline |
| Analytics.ReportFilenameShape | app/analytics/page.tsx:176-178 | the file name is "mpenzimatch-", the type, "-report-", the date part before 'T' and ".csv" |
| Analytics.ListExportLines | app/analytics/page.tsx:185-200 | a list export splits at newlines into its header and its rows, one line more than the rows |
| Analytics.ListExportNoRows | app/analytics/page.tsx:185-186 | with no rows a list export is the header and a newline: two lines, the second empty |
| Analytics.UsersExportLines | app/analytics/page.tsx:184-186 | the "users" export is its header and one `range,count,percentage%` line per age group |
| Analytics.RevenueExportLines | app/analytics/page.tsx:194-196 | the "revenue" export is its header and one `plan,count,$revenue` line per plan |
| Analytics.ReportsExportLines | app/analytics/page.tsx:198-200 | the "reports" export is its header and one `type,count,percentage%` line per report type |
| Analytics.ShareLineFields | app/analytics/page.tsx:186 | a share line splits at commas into its label, count and percentage with '%' when the label has no comma |
| Analytics.ShareLineFieldCount | app/analytics/page.tsx:186 | no quoting: each comma in a label adds a field |
| Analytics.PlanLineFields | app/analytics/page.tsx:196 | a plan line splits into its name, subscribers and '$' revenue when the name has no comma |
| Analytics.EngagementExportLines | app/analytics/page.tsx:188-192 | the "engagement" export is exactly four lines: the header, then Matches, Messages and Likes |
| Analytics.SummaryExportLines | app/analytics/page.tsx:201-206 | any other type gives four lines: the header, Total Users, Active Users and New Today |

## Left out

- Text.IntToString: renders every integer in plain decimal. JavaScript numbers are doubles, so the portal would show a magnitude of 10^21 or more in exponent form ("1e+21") and cannot hold integers past 2^53 exactly. The model's counts and sums are unbounded integers; the portal's mock data stays far below both limits.
- Rendering, modals, tabs and every display-only field are left out: avatars, bios, join dates, URLs, AI scores, user names in conversations, message contents and timestamps.
- The simulated loading delays and the `isLoading`, `isSending` and `isLoadingMessages` flags are left out. Each handler is the state change that follows its delay, and the loaded mock data is a parameter.
- `runAiScan` is left out because it draws random numbers.
- Open rates, `toFixed`, rounded percentages, revenue averages and chart heights are left out, because they are floating point.
- Locale date formatting and `new Date()` are left out. The current time is an opaque ISO string parameter.
- Browser side effects are left out: `alert`, `confirm`, `window.open`, `console` and the Blob/anchor download of a report.
- Text.Lower: lower-cases ASCII letters only. Unicode case mapping is not modelled.
- Analytics.CsvContent: the numbers are integers, as in all the portal's data. JavaScript's rendering of fractional numbers is not modelled.
- Analytics.CsvContent: the report data is always present. The case where `data` is still null, which yields the text "undefined", is not modelled.
- Notifications.NotificationsScreen.EditForm: takes the whole edited form rather than one field name and value.
- Parsing comma-separated user ids with `parseInt` in the compose form is left out: NaN handling is JavaScript library behaviour.
- The password-reset action is left out. It only shows a message; in the model it leaves the list unchanged.
- The block-user button in Messages is left out. It only shows a message.
- Media's `selectedMedia` and Messages' `selectedConversation` are not refreshed after an action, as in the code. The modal state that holds them is otherwise left out.
- The sidebar and the admin layout are left out: they are navigation only.
