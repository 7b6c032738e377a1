# Forum chat client — a Dafny model

This project models the client-side logic of a campus forum chat, a React single-page application. The model covers:

- **The public room** (`ChatBox`):
  - the message feed with backwards paging;
  - replace-by-id updates;
  - the incoming typing indicator;
  - the outbound `publicTyping`/`publicStopTyping` protocol with its stop timer;
  - sending and replying;
  - the `@mention` tokenizer;
  - the warning banner.
- **Private threads:**
  - the member's thread with the staff (`ChatAdmin`): de-duplicated append, read receipts and the `typing`/`stopTyping` signal to the `admins` room;
  - the staff inbox (`AdminPrivateChat`): thread selection, thread-filtered de-duplicated append, per-message read receipts, replies, presence and typing.
- **The notification bell:** newest-first list, unread count, mark all read.
- **Moderation:**
  - the dashboard's permission predicates: moderation actions, delete, role change, approval;
  - the user searches and list tabs, the remaining-mute arithmetic and the numbered pagination;
  - the audit log's Previous/Next paging and colour fallback;
  - the chat search;
  - the reports page: tab filter, loading key, icon fallback and the confirm → call → alert cycle;
  - the online-users page: the presence join and the spinner that a missing token never hides.
- **The `/chat` page around the chat box:** active-ad filtering, ad slots, statistics and the online label.
- **Forms:** the registration and login validators, the 15-character NIM cap, the digit key filter, and submission gating.
- **Session and access control:**
  - the session record's normalisation and its `localStorage` persistence and restore;
  - `logout`;
  - the `ProtectedRoute`/`PublicRoute` guards and the route table;
  - the redirect chains they produce;
  - the navbar's role-dependent links and menu state.

## How the model is built

- **One module per source file**, plus shared modules:
  - `Wrappers` (Option);
  - `Seqs` (`filter`, `map`, `slice(0, n)`, order-preserving subsequence);
  - `Text`. It covers JavaScript truthiness, ASCII `toLowerCase`, `includes`, the `trim` white-space set, `String(n)` and `parseInt(s, 10)`;
  - `Socket` (the emitted socket events as a datatype);
  - `Paging` (ceiling division and the numbered page bar);
  - `FormRules`, the NIM rule, cap and key filter shared by both forms.
- **Component state:** a component whose handlers update React state is a `class`. The state fields are its fields, and every handler is a method. A method's `modifies` frame names only the fields that handler sets, and its `ensures` gives the new values.
- **Emitted events and requests:** socket emits and REST requests are not performed. They are appended to `emitted`/`requests` logs, so sending becomes a statement about the log.
- **Asynchronous handlers** whose two halves matter are split in two: a `Begin…` method runs up to the request, a `Resolve…` method handles the response. These are `loadInitialChats`, `loadMoreChats`, `loadMessages`, `takeAction` and the audit log's `fetchLogs`. Other handlers take the server's answer (success, or failure with an optional `msg`) as a parameter.
- **Timers** are explicit events. `stopTimerRef` says the timeout ref is non-null; `stopTimerLive` says the timer it holds is still scheduled. `StopTimerFires` is the expiry.
- **`localStorage`** is a `map<string, string>`. `setItem` stringifies numbers in decimal and booleans as `true`/`false`; `clear` is `map[]`.
- **Pure view logic** is functions: filters, predicates, the route table and link choice. Their properties are lemmas.

Where the code lacks a step a reader might expect, the model follows the code. Each item below is stated and proved as the code behaves:

- The public feed does not de-duplicate on `chatMessage`: `ChatBoxView.ChatBox.OnChatMessage` appends unconditionally.
- The initial page is stored in the order received, not reversed: `ResolveLoadInitial`.
- No request carries a staleness guard. `AdminPrivateChatView.LateThreadResponse` shows a late answer for the first thread displayed under the second selection.
- Sending in the public room cancels the stop timer but does not null its ref. `ChatBoxView.TypeSendType` shows that the first keystroke after a send announces nothing.
- The login and registration rules differ only where the code does: login has no password-length rule and no confirmation field. Login tests the NIM format only on a present NIM, so its NIM messages are the same as registration's.
- A refetch that reports a smaller total can leave the audit log on a page past the last one, and Next stays enabled there (`AuditLogView.ShrinkingTotal`).
- The chat search calls `toLowerCase` on the alias, and on the message when the alias does not match, without a null check, so one row missing either makes the whole search throw (`ChatManagement.FilteredChatsSpec`).
- A signed-in user whose role is none of the four known ones bounces between `/chat` and `/login` without end (`Routing.UnknownRoleCycles`).

## Model

| member | source | states |
|---|---|---|
| Mentions.Split | src/components/ChatBox.jsx:211-213 | Splitting on `@([A-Za-z0-9#]+)` always gives an odd number of parts: text, name, text, … |
| Mentions.CapturedName | src/components/ChatBox.jsx:211 | At a match, the greedily captured name is non-empty, made of `[A-Za-z0-9#]`, and is not followed by another name character. |
| Mentions.SplitNames | src/components/ChatBox.jsx:211-213 | Every odd-indexed part is a non-empty name over `[A-Za-z0-9#]`. |
| Mentions.SplitFirst | src/components/ChatBox.jsx:211-213 | The first part, when non-empty, begins with the text's first character. |
| Mentions.PrefixMentionFree | src/components/ChatBox.jsx:211 | Putting a character that does not start a match in front of a match-free part keeps it match-free. |
| Mentions.SplitPlain | src/components/ChatBox.jsx:211-213 | Every even-indexed part contains no `@` followed by a name character, so the pattern never matches inside plain text. |
| Mentions.SplitAfterName | src/components/ChatBox.jsx:211-213 | A plain part after a name never begins with a name character: names are taken greedily. |
| Mentions.SplitRebuild | src/components/ChatBox.jsx:211-213 | Putting `@` back before every odd part and concatenating gives the original text. |
| Mentions.SplitMentionFreeText | src/components/ChatBox.jsx:211-213 | A text with no `@` followed by a name character is a single plain part. |
| Mentions.Segments | src/components/ChatBox.jsx:215-231 | Even parts render as plain text and odd parts as mentions. A mention is the reader's own iff `"@" + name` equals the reader's alias; a null alias never matches. |
| Messages.ReplaceByIdPointwise | src/components/ChatBox.jsx:107-111 | A `chatMessageUpdated` replaces every entry with the update's id and keeps every other entry, position and the length. |
| Messages.ReplaceUnknownId | src/components/ChatBox.jsx:107-111 | An update whose id is not loaded leaves the feed unchanged. |
| Messages.ReplaceKeepsIds | src/components/ChatBox.jsx:107-111 | Replacing never creates or removes an id: the id sequence is the same. |
| Messages.ReplaceByIdIdempotent | src/components/ChatBox.jsx:107-111 | Applying the same update twice equals applying it once. |
| Messages.AppendUnique | src/pages/ChatAdmin.jsx:56-63 | The id-checked append only extends the list, by at most one. The id is present afterwards. The ids present are the old ones plus the new one. The list grows iff the id was absent. |
| Messages.AppendUniqueIdempotent | src/pages/ChatAdmin.jsx:56-63 | Receiving the same message twice equals receiving it once. |
| Messages.AppendUniqueKeepsDistinct | src/pages/ChatAdmin.jsx:56-63 | The de-duplicating append preserves distinct ids. |
| Messages.ApplyIncomingExtendsDistinct | src/pages/ChatAdmin.jsx:56-63 | Any run of `privateMessage` events only extends the list at its end and keeps ids distinct. |
| Messages.ApplyIncomingIds | src/pages/ChatAdmin.jsx:56-63 | After a run of events, an id is present iff it was present before or arrived in one of the events. |
| Messages.ApplyIncomingPresent | src/pages/ChatAdmin.jsx:56-63 | Events whose ids are all listed already change nothing. |
| Messages.ApplyIncomingReplay | src/pages/ChatAdmin.jsx:56-63 | Replaying the same batch of events a second time changes nothing. |
| Messages.MarkUserMessagesReadPointwise | src/pages/ChatAdmin.jsx:68-72 | `messagesReadByAdmin` sets `status` to `read` on every message from a `user`. Every other message is untouched; length and order are kept. |
| Messages.MarkUserMessagesReadIdempotent | src/pages/ChatAdmin.jsx:68-72 | A second `messagesReadByAdmin` changes nothing. |
| Messages.MarkReadByIdPointwise | src/pages/AdminPrivateChat.jsx:65-69 | `messageRead(id)` marks exactly the entries with that id as read; the others are untouched and the length is kept. |
| Messages.MarkReadByIdKeepsIds | src/pages/AdminPrivateChat.jsx:65-69 | Read-marking never changes which ids are present. |
| ChatBoxView.KeystrokeKeepsProtocol | src/components/ChatBox.jsx:192-203 | A keystroke emits `publicTyping` only without a pending marker and leaves a live timer behind. So two `publicTyping` signals are always separated by a `publicStopTyping`, and a start is never left without a timer to end it. |
| ChatBoxView.StopKeepsProtocol | src/components/ChatBox.jsx:198-201 | Emitting `publicStopTyping` keeps that protocol, however the timer state changes afterwards. |
| ChatBoxView.OtherEmitKeepsProtocol | src/components/ChatBox.jsx:173 | Emits other than the two typing signals do not affect the protocol. |
| ChatBoxView.WarningMessage | src/components/ChatBox.jsx:205-209 | There is a banner iff `warnCount > 0`. |
| ChatBoxView.WarningNamesCounts | src/components/ChatBox.jsx:205-209 | The banner contains the number of warnings received and the `5 - warnCount` still allowed, in decimal. |
| ChatBoxView.ChatBox.constructor | src/components/ChatBox.jsx:46-85 | Mounting starts at page 1 with `hasMore` set, an empty feed and no timer, and emits `userOnline` with the user's id. |
| ChatBoxView.ChatBox.OnChatMessage | src/components/ChatBox.jsx:87-105 | A `chatMessage` is appended at the end with no duplicate check. The typing indicator clears iff it shows the message's alias. |
| ChatBoxView.ChatBox.OnChatMessageUpdated | src/components/ChatBox.jsx:107-111 | The feed becomes the replace-by-id of the old feed. |
| ChatBoxView.ChatBox.OnPublicTyping | src/components/ChatBox.jsx:113 | The indicator shows the alias received. |
| ChatBoxView.ChatBox.OnPublicStopTyping | src/components/ChatBox.jsx:114 | The indicator clears. |
| ChatBoxView.ChatBox.BeginLoadInitial | src/components/ChatBox.jsx:62-64 | The first page is requested iff the user has a token; only then is the loading flag set. |
| ChatBoxView.ChatBox.ResolveLoadInitial | src/components/ChatBox.jsx:65-79 | An array body replaces the feed as received, takes `hasMore` and moves to page 2. Any other body or a failure keeps feed, flag and page. Loading ends either way. |
| ChatBoxView.ChatBox.BeginLoadMore | src/components/ChatBox.jsx:130-132 | An older page is requested iff `hasMore` holds and nothing is loading. Otherwise nothing changes. |
| ChatBoxView.ChatBox.ResolveLoadMore | src/components/ChatBox.jsx:137-154 | A non-empty array page is prepended in received order, advances `page` by one and takes `hasMore`. An empty or non-array page ends the history and keeps the feed. A failure keeps everything. Loading ends in every case. |
| ChatBoxView.ChatBox.SetReplyTo | src/components/ChatBox.jsx:426 | The reply target is set to the chosen message. |
| ChatBoxView.ChatBox.CancelReply | src/components/ChatBox.jsx:460 | The reply target is cleared. |
| ChatBoxView.ChatBox.Keystroke | src/components/ChatBox.jsx:192-203 | The input takes the value. `publicTyping` with the user's alias is emitted iff no marker was set. The timer is armed; the typing protocol is kept. |
| ChatBoxView.ChatBox.StopTimerFires | src/components/ChatBox.jsx:198-201 | A live timer emits `publicStopTyping` and clears the marker; with no live timer nothing happens. |
| ChatBoxView.ChatBox.Send | src/components/ChatBox.jsx:169-182 | A blank input sends nothing. Otherwise the raw input and the reply target's id, or null, are posted. On success: the created message is re-emitted, the input and reply are reset, the timer is cancelled and `publicStopTyping` goes out, while the marker stays set. On failure only the alert text is produced. |
| ChatBoxView.TypeSendType | src/components/ChatBox.jsx:169-203 | Type, send, type again emits exactly `userOnline`, one `publicTyping`, the created message and `publicStopTyping`. The second burst announces nothing. |
| ChatAdminView.MessageStatus | src/pages/ChatAdmin.jsx:27-37 | Two ticks iff the status is `read`; every other status gets one. |
| ChatAdminView.OwnMessagesShowRead | src/pages/ChatAdmin.jsx:68-72 | A message is the member's own iff a `user` sent it (line 156). After `messagesReadByAdmin` every own message shows two ticks, and every staff message is drawn as before. |
| ChatAdminView.ChatAdmin.constructor | src/pages/ChatAdmin.jsx:48-50 | Mounting joins the user's own room iff the user has a truthy id. |
| ChatAdminView.ChatAdmin.OnMessagesLoaded | src/pages/ChatAdmin.jsx:52-54 | The fetched thread replaces the list. |
| ChatAdminView.ChatAdmin.OnPrivateMessage | src/pages/ChatAdmin.jsx:56-63 | The list becomes the id-checked append of the message; distinct ids stay distinct. |
| ChatAdminView.ChatAdmin.OnTyping | src/pages/ChatAdmin.jsx:65 | The indicator shows the alias received. |
| ChatAdminView.ChatAdmin.OnStopTyping | src/pages/ChatAdmin.jsx:76 | The indicator clears. |
| ChatAdminView.ChatAdmin.OnMessagesReadByAdmin | src/pages/ChatAdmin.jsx:68-72 | Every message sent by a user turns read. |
| ChatAdminView.ChatAdmin.Send | src/pages/ChatAdmin.jsx:91-102 | Nothing is sent for a blank input or without a user. Success clears the input, cancels the timer and emits `stopTyping("admins")`. Failure keeps the input and alerts `Pesan gagal terkirim.`. A pending `typing` always keeps a live timer. |
| ChatAdminView.ChatAdmin.Keystroke | src/pages/ChatAdmin.jsx:104-111 | Every keystroke takes the value, emits `typing("admins", alias)` and re-arms the timer. |
| ChatAdminView.ChatAdmin.StopTimerFires | src/pages/ChatAdmin.jsx:108-111 | A live timer emits `stopTyping("admins")` and clears the ref. |
| AdminPrivateChatView.FindUser | src/pages/AdminPrivateChat.jsx:109 | The lookup finds a user iff some entry has the id, and returns the first such entry. |
| AdminPrivateChatView.SelectedUserOnline | src/pages/AdminPrivateChat.jsx:109-111 | The presence dot shows iff the selected user is listed and that entry's id is among the online ids. |
| AdminPrivateChatView.OwnSide | src/pages/AdminPrivateChat.jsx:220 | A message is the staff member's own iff its sender id equals theirs. Without an id nothing is own. What the selected user sends is on the far side unless that user is the viewer. |
| AdminPrivateChatView.AdminPrivateChat.constructor | src/pages/AdminPrivateChat.jsx:21-51 | Mounting requests the thread list iff there is a token, and joins the staff member's room iff there is an id. |
| AdminPrivateChatView.AdminPrivateChat.FetchUsers | src/pages/AdminPrivateChat.jsx:21-25 | The list is requested iff there is a token. |
| AdminPrivateChatView.AdminPrivateChat.OnUsersFetched | src/pages/AdminPrivateChat.jsx:23 | The fetched list replaces the users. |
| AdminPrivateChatView.AdminPrivateChat.OnOnlineUsers | src/pages/AdminPrivateChat.jsx:30 | An `onlineUsers` event replaces the online ids. |
| AdminPrivateChatView.AdminPrivateChat.OnChatListChanged | src/pages/AdminPrivateChat.jsx:31 | `privateChatListChanged` refetches the list, token permitting. |
| AdminPrivateChatView.AdminPrivateChat.SelectUser | src/pages/AdminPrivateChat.jsx:42-76 | Selecting a thread sets the selection, joins its room and requests its messages. When the selection changes, the listener effect re-runs and, with a truthy id, joins the staff member's own room again. |
| AdminPrivateChatView.AdminPrivateChat.OnMessagesFetched | src/pages/AdminPrivateChat.jsx:45 | A thread response replaces the messages whatever is selected by then. |
| AdminPrivateChatView.AdminPrivateChat.OnPrivateMessage | src/pages/AdminPrivateChat.jsx:52-61 | A message from or to the selected user is id-checked and appended. Any other message leaves the thread unchanged and only refetches the list. Distinct ids stay distinct. |
| AdminPrivateChatView.AdminPrivateChat.OnMessageRead | src/pages/AdminPrivateChat.jsx:65-69 | The thread becomes the read-marking of that one id. |
| AdminPrivateChatView.AdminPrivateChat.OnTyping | src/pages/AdminPrivateChat.jsx:63 | The indicator shows the alias received. |
| AdminPrivateChatView.AdminPrivateChat.OnStopTyping | src/pages/AdminPrivateChat.jsx:64 | The indicator clears. |
| AdminPrivateChatView.AdminPrivateChat.SendReply | src/pages/AdminPrivateChat.jsx:82-89 | A blank reply or no selection sends nothing. Otherwise the reply is posted to the selected user, and the text is cleared only if the request succeeds. |
| AdminPrivateChatView.AdminPrivateChat.Keystroke | src/pages/AdminPrivateChat.jsx:98-101 | The text is always taken. `typing(selected, alias or "Admin")` is emitted iff a thread is selected. |
| AdminPrivateChatView.LateThreadResponse | src/pages/AdminPrivateChat.jsx:42-76 | Selecting A then B, with A's answer arriving last, shows A's messages under selection B. The rooms joined are exactly: own, A, own, B, own for distinct threads with an id; own, A, own, A when B is A; just A and B without an id. |
| NotificationBellView.UnreadCount | src/components/NotificationBell.jsx:52 | The unread count never exceeds the list length. |
| NotificationBellView.UnreadCountPositiveIff | src/components/NotificationBell.jsx:73 | The badge (count > 0) shows iff some notification is unread; the same gate guards mark-all at line 86. |
| NotificationBellView.UnreadCountPrepend | src/components/NotificationBell.jsx:20-22 | A pushed notification raises the count by one iff it is unread. |
| NotificationBellView.MarkAllReadClears | src/components/NotificationBell.jsx:46 | Mark-all keeps the length and every field but `isRead` of every entry. Every entry is read afterwards and the count is 0. Marking all read twice equals marking once. |
| NotificationBellView.NotificationBell.constructor | src/components/NotificationBell.jsx:12-13 | The bell starts empty and closed. |
| NotificationBellView.NotificationBell.OnNotificationsLoaded | src/components/NotificationBell.jsx:16-18 | The fetched list replaces the notifications (token required). |
| NotificationBellView.NotificationBell.OnNewNotification | src/components/NotificationBell.jsx:20-22 | A new notification goes in front of the unchanged old list; the count rises iff it is unread. |
| NotificationBellView.NotificationBell.MarkAllAsRead | src/components/NotificationBell.jsx:43-50 | Success marks all read and the count is 0; failure changes nothing. |
| NotificationBellView.NotificationBell.Toggle | src/components/NotificationBell.jsx:57 | The bell button flips the dropdown. |
| NotificationBellView.NotificationBell.ClickOutside | src/components/NotificationBell.jsx:33-41 | A mouse-down outside closes the dropdown. |
| AdminRules.SelfHasNoActions | src/pages/Admin.jsx:28-40 | On one's own row none of the three permissions holds. |
| AdminRules.Rank | src/pages/Admin.jsx:29-40 | The role order the permission checks compare: super-admin 3, admin 2, moderator 1, anything else 0, never above 3. `PermissionsGrowWithRank` is stated over it. |
| AdminRules.PermissionsGrowWithRank | src/pages/Admin.jsx:29-40 | Whatever a lower role may do to a target, every higher role may do too. |
| AdminRules.DeleteByRole | src/pages/Admin.jsx:34-39 | A super-admin may delete anyone else. An admin may delete others whose role is neither admin nor super-admin. A moderator, a user or an unknown role may delete nobody. |
| AdminRules.FilteredUsersSpec | src/pages/Admin.jsx:294-298 | The search keeps list order and exactly the users whose lowered alias or NIM contains the lowered query. |
| AdminRules.EmptyQueryKeepsIdentified | src/pages/Admin.jsx:294-298 | Even the empty query drops users with neither an alias nor a NIM. |
| AdminRules.ListTabsSpec | src/pages/Admin.jsx:299-303 | Muted: `isMuted` and a mute end after now. Warned: `warnCount > 0`. Pending: status `pending`. |
| AdminRules.MuteExpires | src/pages/Admin.jsx:299-301 | From a user's mute end on, they are not on the muted tab. |
| AdminRules.ApprovalGate | src/pages/Admin.jsx:568-570 | Approve/Reject appear only for pending users, and only to admins and super-admins. |
| AdminRules.MuteTextExpired | src/pages/Admin.jsx:304-311 | The row reads `Expired` exactly when the mute end is not after now; otherwise the `Nh Mm` text ends in `m`. |
| AdminRules.RemainingMute | src/pages/Admin.jsx:305-311 | `Expired` iff the difference is `<= 0`. Otherwise it is whole hours, then whole minutes of the rest: minutes < 60, and hours·3600000 + minutes·60000 ≤ diff < that + 60000. |
| AdminRules.DashboardPagination | src/pages/Admin.jsx:313-350 | With 20 rows a page there is no bar iff the total is at most 20. |
| Paging.TotalPages | src/pages/Admin.jsx:314 | `ceil(total / limit)`: the page count is the least n with n·limit ≥ total. |
| Paging.TotalPagesSmall | src/pages/Admin.jsx:315 | There are no pages iff there are no items, and at most one page iff there are at most `limit` items. |
| Paging.PageNumbers | src/pages/Admin.jsx:317 | The buttons are `1..n` in order. |
| Paging.PageNumbersExact | src/pages/Admin.jsx:317 | A page number is offered iff it lies in `1..n`, strictly increasing. |
| Paging.Pagination | src/pages/Admin.jsx:313-347 | No bar iff there is at most one page. The buttons are exactly the pages. Previous is disabled iff the current page is 1; Next iff it is the last page. |
| AuditLogView.ActionColor | src/components/AuditLogTab.jsx:6-24 | A known action gets its colour, anything else `bg-gray-100`. |
| AuditLogView.ActionColorFallback | src/components/AuditLogTab.jsx:24 | An action gets the grey fallback iff it is none of the seven known ones. |
| AuditLogView.AuditLogTab.constructor | src/components/AuditLogTab.jsx:64-69 | The tab starts on page 1 of an empty log. |
| AuditLogView.AuditLogTab.BeginFetch | src/components/AuditLogTab.jsx:72-76 | Without a token nothing changes, the spinner included. With one, loading starts and the current page is requested with limit 25. |
| AuditLogView.AuditLogTab.ResolveFetch | src/components/AuditLogTab.jsx:76-83 | Success stores the entries and the total. A failure keeps both. Loading ends either way. |
| AuditLogView.AuditLogTab.Previous | src/components/AuditLogTab.jsx:92-99 | The bar is visible when nothing is loading (line 118) and there is more than one page. With a visible bar and a page other than 1, Previous goes one page back; otherwise nothing. A page in range stays in range. |
| AuditLogView.AuditLogTab.Next | src/components/AuditLogTab.jsx:92-109 | With a visible bar (no spinner, line 118, and more than one page) and a page other than the last, Next goes one page on; otherwise nothing. A page in range stays in range. |
| AuditLogView.AuditLogTab.ClickAndFetch | src/components/AuditLogTab.jsx:72-109 | A click moves the page as Previous or Next does. Only a change of page refetches, and it requests the new page; its answer is stored as `ResolveFetch` says and loading ends. A click that leaves the page alone sends nothing and changes nothing else. A page in range stays in range when the answer fails or repeats the total. |
| AuditLogView.ClickThrough | src/components/AuditLogTab.jsx:72-109 | With a token, after the first fetch, any run of clicks, each refetching the same total, ends on a page in `[1, ceil(total/25)]`, or on page 1 when there is no bar. |
| AuditLogView.ShrinkingTotal | src/components/AuditLogTab.jsx:72-109 | From page 4 of 4, a refetch reporting 30 entries leaves page 4 of 2, and Next still moves to page 5. |
| ChatManagement.FilteredChatsSpec | src/components/ChatManagementTab.jsx:39-43 | The search throws iff some row has no alias, or has an alias that does not match and no message. Otherwise it keeps list order and exactly the chats whose lowered alias, or else lowered message, contains the lowered query. |
| ChatManagement.CompleteRowsNeverFail | src/components/ChatManagementTab.jsx:39-43 | Rows that all carry an alias and a message never make the search throw. |
| ChatManagement.EmptyQueryKeepsAll | src/components/ChatManagementTab.jsx:39-43 | The empty query keeps every chat, unless some chat has no alias, which makes it throw. |
| ChatManagement.FilteredChatsIdempotent | src/components/ChatManagementTab.jsx:39-43 | A search that succeeds succeeds again on its own result, with the same result. |
| ChatManagement.QueryCaseIgnored | src/components/ChatManagementTab.jsx:41-42 | Lower-casing the query first changes nothing, whether the search throws included. |
| AdminReportsView.FilteredReportsSpec | src/pages/AdminReports.jsx:82 | A tab lists exactly the reports with its status, in order received. |
| AdminReportsView.LoadingKeyInjective | src/pages/AdminReports.jsx:63 | `reportId + action` determines both the report and the action. |
| AdminReportsView.LoadingOnlyActedReport | src/pages/AdminReports.jsx:194-197 | While an action runs, its report shows as loading and no other report does. |
| AdminReportsView.ButtonsOnlyOnPending | src/pages/AdminReports.jsx:256 | Action buttons appear on a listed report iff the pending tab is open and the report is pending (the tab filter is line 82). |
| AdminReportsView.ButtonsDisabledWhileActing | src/pages/AdminReports.jsx:193-260 | With an action in flight, a report whose reported user exists has disabled buttons iff it is the acted report. With nothing in flight, buttons are disabled iff the reported user is missing. |
| AdminReportsView.CategoryIcon | src/pages/AdminReports.jsx:207 | A known category gets its icon, any other the memo icon. |
| AdminReportsView.UnknownCategoryLikeOther | src/pages/AdminReports.jsx:83-90 | An unknown category shows the same icon as `lainnya`. |
| AdminReportsView.OutcomeAlert | src/pages/AdminReports.jsx:71-75 | Success alerts the server's message. A failure alerts `Gagal ambil tindakan: ` followed by the server's `msg` when truthy, else the error message. |
| AdminReportsView.AdminReports.constructor | src/pages/AdminReports.jsx:9-13 | The page starts on the `pending` tab with nothing loading. |
| AdminReportsView.AdminReports.OnReportsFetched | src/pages/AdminReports.jsx:40-50 | A fetch replaces the reports. |
| AdminReportsView.AdminReports.SelectTab | src/pages/AdminReports.jsx:158-168 | The tab changes to the chosen status. |
| AdminReportsView.AdminReports.BeginTakeAction | src/pages/AdminReports.jsx:58-70 | A declined confirm changes nothing. An accepted one sets the loading key to `reportId + action` and issues the call with the reported user's id, the action and the report. |
| AdminReportsView.AdminReports.ResolveTakeAction | src/pages/AdminReports.jsx:71-78 | The outcome is alerted and the loading key is cleared on success and failure alike. |
| AdminOnline.OnlineUsersDataSpec | src/pages/AdminOnline.jsx:40 | Shown are the registered users whose id is online, in registration order, never more than registered. |
| AdminOnline.UnknownIdCountedNotShown | src/pages/AdminOnline.jsx:71 | An online id without a loaded record is counted in the header but never shown. |
| AdminOnline.AfterFetch | src/pages/AdminOnline.jsx:14-26 | The spinner ends iff there is a token. With a token, a success stores `users` or `[]`. Presence ids are untouched. |
| AdminOnline.OnOnlineUsers | src/pages/AdminOnline.jsx:31-33 | An `onlineUsers` event replaces the ids and nothing else. |
| AdminOnline.ReplayKeepsLoading | src/pages/AdminOnline.jsx:31-33 | Presence events never change the spinner. |
| AdminOnline.NoTokenKeepsLoading | src/pages/AdminOnline.jsx:16-24 | Without a token the spinner never goes away, whatever events arrive. |
| ChatPage.AdSlotsSpec | src/pages/Chat.jsx:98-99 | The adsense slots are the first at most 3 adsense ads in order, and likewise the custom slots. The mobile strip is the first at most 2 custom ads (line 485). |
| ChatPage.AfterInitialFetch | src/pages/Chat.jsx:56-74 | Loading always ends. Without a token or on failure nothing else changes. On success the active ads and the member and chat totals are stored. |
| ChatPage.AfterAdsUpdated | src/pages/Chat.jsx:79-82 | `adsUpdated` stores the refetched active ads and nothing else. |
| ChatPage.AfterStats | src/pages/Chat.jsx:83-87 | `updateChatStats` overwrites the three counters and nothing else. |
| ChatPage.AdsStayActive | src/pages/Chat.jsx:66 | Every handler keeps the stored ads all active. |
| ChatPage.OnlineLabel | src/pages/Chat.jsx:144 | The label reads `N Online` for a positive count, else `Live Chat`. |
| ChatPage.OnlineLabelDistinguishes | src/pages/Chat.jsx:144 | The label reads `Live Chat` iff the count is not positive. |
| FormRules.NimEdit | src/pages/Register.jsx:126-131 | An edit of at most 15 characters is taken; a longer one is dropped (also src/pages/Login.jsx:117-123). |
| FormRules.NimEditsStayShort | src/pages/Register.jsx:126-131 | Starting short, no sequence of edits makes the NIM longer than 15. |
| FormRules.NimError | src/pages/Register.jsx:18-22 | No NIM message iff the NIM is 1–15 digits. `NIM wajib diisi` iff it is empty; the format message iff it is present but not 1–15 digits (also src/pages/Login.jsx:14-18). |
| FormRules.PutError | src/pages/Register.jsx:16-34 | Setting `newErrors[key]` for a message adds that key with that message; no message leaves the map as it was. |
| FormRules.KeyFilterExamples | src/pages/Register.jsx:40-50 | Apart from keycodes 8, 46, 37 and 39, a one-character key passes iff it is a decimal digit (Login.jsx:23-33 is the same filter). |
| RegisterPage.PasswordError | src/pages/Register.jsx:24-28 | No message iff the password has at least 6 characters. `Password wajib diisi` iff it is empty; `Password minimal 6 karakter` iff it has 1–5. |
| RegisterPage.ConfirmError | src/pages/Register.jsx:30-34 | No message iff the confirmation is non-empty and equals the password. The required message iff it is empty; `Password tidak cocok` iff present but different. |
| RegisterPage.FormErrors | src/pages/Register.jsx:15-37 | Each of the three keys is present iff its field fails, with that field's message, and no other key is set. The map is empty iff the form is acceptable. |
| RegisterPage.Validate | src/pages/Register.jsx:15-38 | The errors are the form's error map, and `ok` holds iff it is empty, iff the NIM is 1–15 digits, the password has length ≥ 6 and the confirmation equals it. |
| RegisterPage.Register.constructor | src/pages/Register.jsx:6-12 | The form starts empty with no errors. |
| RegisterPage.Register.EditNim | src/pages/Register.jsx:126-131 | An edit over 15 characters leaves the form unchanged. |
| RegisterPage.Register.EditPassword | src/pages/Register.jsx:161-162 | The password takes the value. |
| RegisterPage.Register.EditConfirm | src/pages/Register.jsx:191-192 | The confirmation takes the value. |
| RegisterPage.Register.Submit | src/pages/Register.jsx:52-71 | An invalid form shows exactly the validator's errors and makes no call. A valid one posts NIM and password, then shows success with the redirect scheduled, or the server's `msg`, else `Registrasi gagal. Coba lagi.`. |
| LoginPage.LoginErrors | src/pages/Login.jsx:12-19 | The NIM key carries the NIM message, which only a present NIM can make the format message. The password key is set iff the password is empty. No other key is set; there is no length rule. The map is empty iff the form is acceptable. |
| LoginPage.Validate | src/pages/Login.jsx:12-21 | The errors are the form's error map, and `ok` holds iff it is empty, iff the NIM is 1–15 digits and the password is non-empty. |
| LoginPage.Login.constructor | src/pages/Login.jsx:7-10 | The form starts empty with no errors. |
| LoginPage.Login.EditNim | src/pages/Login.jsx:117-123 | An edit over 15 characters leaves the form unchanged. |
| LoginPage.Login.EditPassword | src/pages/Login.jsx:154-155 | The password takes the value. |
| LoginPage.Login.Submit | src/pages/Login.jsx:35-52 | An invalid form shows exactly the validator's errors and touches neither the server nor the session. A valid one posts the form. Success starts the session with the normalised record and its storage writes, and emits `registerUserSocket` iff the id is truthy. Failure shows the server's `msg`, else `Login gagal. Periksa NIM dan password Anda.`. |
| Auth.Normalize | src/context/AuthContext.jsx:40-50 | `id` falls back to `_id`. `warnCount` defaults to 0 and the two flags to false. `muteUntil` is kept iff truthy. Token, alias and role are copied. |
| Auth.StoreLookup | src/context/AuthContext.jsx:54-58 | After the `setItem` loop a key holds the last non-null value written for it, or what it held before. |
| Auth.LoginStorage | src/context/AuthContext.jsx:54-58 | Key by key: a present field is written (numbers in decimal, flags as `true`/`false`). A null field leaves its key alone, and no other key is touched. |
| Auth.Restore | src/context/AuthContext.jsx:9-21 | A session is restored iff token and id are stored and non-empty. The flags are set iff stored as `true`; an unparsable `warnCount` reads as 0. |
| Auth.RestoreOf | src/context/AuthContext.jsx:9-21 | Storage that holds each field of a session, with a truthy id and token, `warnCount` written in decimal and the flags as `true`/`false`, restores exactly that session; reading the count back relies on `parseInt(String(n), 10) == n`. |
| Auth.LoginThenRestore | src/context/AuthContext.jsx:9-58 | A session that `login` writes into cleared storage, with truthy id and token, is restored unchanged on the next start-up. |
| Auth.AuthContext.constructor | src/context/AuthContext.jsx:9-25 | Mounting restores the session from storage and emits `registerUserSocket` iff one is restored. |
| Auth.AuthContext.Login | src/context/AuthContext.jsx:40-63 | The user becomes the normalised record. Storage becomes the in-order fold of its non-null entries. `registerUserSocket` is emitted iff the id is truthy. |
| Auth.AuthContext.OnUserUpdated | src/context/AuthContext.jsx:27-31 | A `userUpdated` payload has exactly the effect of `login`. |
| Auth.AuthContext.Logout | src/context/AuthContext.jsx:65-71 | The user is cleared and storage is emptied. |
| Text.TrimEmptyIffBlank | src/components/ChatBox.jsx:170 | `!s.trim()` holds exactly for strings made only of JavaScript white space. |
| Text.OrElse | src/components/ChatBox.jsx:180 | The JavaScript `or` of a possibly-null string and a fallback (server message or fixed text): the string when it is truthy, otherwise the fallback; the result is empty only when the string is not truthy and the fallback is empty. |
| Text.IncludesIffOccurs | src/components/ChatManagementTab.jsx:41-42 | `includes` holds iff the needle occurs at some index. |
| Text.ParseDigits | src/context/AuthContext.jsx:15 | The digit part of `parseInt` yields NaN exactly when the text after the sign does not start with a decimal digit. |
| Text.ParseIntOfIntToString | src/context/AuthContext.jsx:15 | `parseInt(String(n), 10)` gives back `n`, which the `warnCount` round trip through storage relies on. |
| Routing.Protected | src/components/ProtectedRoute.jsx:8-24 | No user goes to `/login` whatever the role. A list admits the user iff their role is in it; a non-empty string admits iff equal; no role or `""` admits every signed-in user. `/login` is the only target. |
| Routing.Public | src/components/PublicRoute.jsx:8-13 | Any signed-in user is sent to `/chat`; a visitor sees the page. |
| Routing.RouteStep | src/App.js:36-46 | Each render either shows a screen or redirects to `/login` or `/chat`. Unknown paths go to `/chat`, and unguarded pages always show. |
| Routing.SponsorshipIsUnguarded | src/App.js:44 | `/sponsorship` shows for every session. |
| Routing.KnownRoleEndsAtScreen | src/App.js:36-46 | For the four known roles every path ends at a screen within three renders. A refused path ends at the chat by way of `/login`. |
| Routing.SignedOutEndsAtLogin | src/App.js:36-46 | A visitor ends at `/register`, `/sponsorship` or, from every other path, the login page. |
| Routing.UnknownRoleCycles | src/App.js:36-38 | A signed-in user with an unknown role reaches no screen except `/sponsorship`, however many redirects are followed. |
| NavbarView.PrivateChatTarget | src/components/Navbar.jsx:134 | The private link goes to `/admin-private` iff admin-or-higher, else `/chat-admin` (also line 252). |
| NavbarView.LogoTarget | src/components/Navbar.jsx:104 | The logo goes to `/chat` iff signed in, else `/login`. |
| NavbarView.NavLinkTargets | src/components/Navbar.jsx:118-188 | The `NavLink` targets: Dashboard iff admin-or-higher, Sponsorship always, Chat and the private link for a signed-in user, Login iff nobody is signed in; never `/register`. |
| NavbarView.DesktopLinks | src/components/Navbar.jsx:118-194 | The desktop bar offers exactly the `NavLink` targets plus, for a visitor, the plain Register link. |
| NavbarView.MobileLinks | src/components/Navbar.jsx:236-287 | The mobile menu offers the desktop links, except that a visitor gets no Sponsorship link. |
| NavbarView.PrivateChatLinkAdmitted | src/components/Navbar.jsx:134 | For each known role the private link's guard admits that role. |
| NavbarView.DesktopLinksAdmitted | src/components/Navbar.jsx:118-194 | For a visitor or a known role every offered link renders its page without a redirect. |
| NavbarView.UnknownRoleChatLinkRedirects | src/components/Navbar.jsx:118-122 | A signed-in user with an unknown role is offered a Chat link whose guard sends them to `/login`. |
| NavbarView.Navbar.constructor | src/components/Navbar.jsx:10-12 | The bar starts with the menu closed and no scroll shadow. |
| NavbarView.Navbar.ActiveLinks | src/components/Navbar.jsx:41-68 | Only a `NavLink` or `MobileNavLink` compares its target with the path; the Register `Link` at lines 189-191 does not, so the highlighted set is the current path when it is one of the `NavLink` targets, else empty. The plain Register link is never highlighted, and any non-Register mobile link matching the path is highlighted. |
| NavbarView.Navbar.ToggleMenu | src/components/Navbar.jsx:154 | The menu button flips the menu. |
| NavbarView.Navbar.MouseDown | src/components/Navbar.jsx:27-35 | A mouse-down outside the bar closes the menu; inside it, nothing changes. |
| NavbarView.Navbar.CloseMenu | src/components/Navbar.jsx:297 | A mobile link or the overlay closes the menu. |
| NavbarView.Navbar.Navigated | src/components/Navbar.jsx:37-39 | A change of path closes the menu. |
| NavbarView.Navbar.Scrolled | src/components/Navbar.jsx:19-25 | The shadow shows iff `scrollY > 10`. |

## Left out

- JSX markup, styling, scrolling into view after fetches and messages, the skeleton loaders, the theme toggle and the announcement banner: presentation only.
- The REST services and `src/services/api.js` (token refresh-and-retry interceptor): network calls become recorded requests and outcome parameters.
- `Promise.all` in `src/pages/Chat.jsx`: the combined result is one parameter.
- Socket listener registration and removal, and effects re-running when `user` changes: each handler is a method, callable after mounting. The re-run on a change of `selectedUser` is modelled, in `SelectUser`.
- `page` in the public room is a client-side counter: `getChats` in `src/services/chatService.js` takes only the token, and the service is not part of this model.
- `console` logging, `window.confirm` (a `confirmed` parameter) and `alert` (an alert output or log).
- The stop timer in `src/pages/AdminPrivateChat.jsx:102-106`: `typingTimeout` is a plain `let` re-created on every render, so the clear does not reliably cancel the previous timer. No timer state is modelled there, and the delayed `stopTyping` is not emitted in the model.
- The `isMuted`/`muteUntil` date checks that disable the public send button and show the mute notice in `src/components/ChatBox.jsx`: they read the clock and parse date strings. The send method does not consult them.
- Dates: `muteUntil` on dashboard rows is integer milliseconds and "now" is a parameter; `new Date(…)` parsing is not modelled.
- Case folding is ASCII-only (`Text.Lower`): JavaScript's full Unicode `toLowerCase` is not modelled.
- String length is counted in Unicode scalar values, not UTF-16 code units. This matters for the password length rule on passwords with astral characters, and for the 15-character NIM cap (`FormRules.NimEdit`, after `src/pages/Register.jsx:126-131` and `src/pages/Login.jsx:117-123`) on input with astral characters.
- JavaScript object lookups also find inherited keys: `AuditLogView.ActionColor` and `AdminReportsView.CategoryIcon` look up a plain map, so an action or category named like an `Object.prototype` member (`constructor`, `toString`) gets the fallback here, where the browser would get that member.
- Route matching is exact: React Router's case-insensitive and trailing-slash matching is not modelled.
- The other source files are not part of this model: ChatBox's per-message rendering (mention highlighting from `m.mentions`, role badges, delete and report buttons), `src/pages/AdminAnalytics.jsx`, `src/pages/Sponsorship.jsx`, the ad and announcement management tabs, `ReportModal` and `src/index.js`.
- `Routing.Navigate`: follows redirects with a `fuel` bound. A run that exhausts the bound yields `None`; `UnknownRoleCycles` shows that for unknown roles this happens for every bound.
