# Intranet portal core, modelled in Dafny

The portal is a mock company intranet written as a Next.js application. This
project models the parts of it that compute rather than render:

- **Client store** (lib/store.ts). This is the state that pages share: the
  signed-in user, announcements, events, notifications, Teams messages,
  documents and help-desk tickets. Each action prepends a record, merges an
  update into the records with a given id, deletes by id, marks notifications
  read, or runs the case-insensitive search.
- **Moderation workflow.** The admin page and its table create, edit,
  approve, reject and delete announcements. They sit behind a role gate and
  split the list into status tabs.
- **Visibility and query filters.** These are the announcements page rule,
  the home, dashboard and departments feeds, the GET filters of the
  announcement, event and Teams routes, and the events page split into
  upcoming and past.
- **Keyword classifiers and templates.** These are the priority classifier,
  the chatbot's topic selection, the AI text templates, the translation lookup
  `t`, the greeting by hour and the scheduled/sent status of an outgoing
  notification.
- **Page state machines.** These are the help-desk create and reply flow, the
  notification centre, folder navigation in the document library, sending a
  Teams message with its relative-time label, and the announcement form with
  its AI pre-fill.

Each source file has its own module.

- Code that updates state becomes a `class`, with `modifies` frames on its
  methods: the store, the admin page, the form, the auth provider and the
  page state machines.
- Code that reassigns a local through a loop or conditional filters becomes a
  `method`, proved against a specification function: the API GET handlers
  and the document path walk.
- Everything else is functions, with lemmas stating what the source
  promises.

Shared definitions live in `Seqs` (Option, Filter, order-preserving
subsequence), `Text` (ASCII lowering, substring, JavaScript `trim`, decimal
rendering), `Types` (the entities and `Partial<T>` merges), `Records`
(update and delete by id) and `Api` (parsed bodies and HTTP responses).

### Modelling conventions

- **Optional strings.** An optional string field is a plain `string`, and
  `""` stands for "not set". Every read of such a field goes through `||` or
  a truthiness test, which treat both alike.
- **`Partial<T>` updates.** An update is a record of `Option` fields. A merge
  (`{ ...t, ...u }`) takes each supplied field and keeps the rest.
- **Clock and ids.** Every timestamp is an integer (milliseconds), passed in
  as `now`. `Date.now().toString()` ids are the decimal rendering of that
  same `now`.
- **Confidences** are integers in hundredths.
- **HTTP bodies.** A request body is either `Malformed` or the parsed
  fields. `Malformed` covers both `request.json()` throwing and a body that
  parses to JSON `null`, whose first field access throws inside the same
  `try`. A handler's reply is `Ok(status, value)` or
  `Failure(status, error)`.
- **Query parameters** are `Option<string>`, compared with each enum value's
  wire name. So an unknown value filters everything out and `""` counts as
  absent, exactly as in JavaScript.
- **Teams message fields.** lib/types.ts declares no `senderId`,
  `channelId` or `teamId` on a Teams message. The Teams page writes and reads
  all three, so the model's message record carries them. `from`/`fromId` are
  named `sender`/`senderId`.
- **Undefined in templates.** A missing field interpolated into a template
  literal renders as `"undefined"`.
- **Mock data from lib/mock-data.** The mock announcements, events,
  notifications, tickets, teams, messages and documents are parameters,
  because that module is not part of this model.

## Model

| member | source | states |
|---|---|---|
| Types.WireNamesInjective | lib/types.ts:1-4 | distinct priorities, departments and statuses have distinct wire names |
| Types.MergeAnnouncementLaws | lib/store.ts:127-130 | an empty spread changes nothing, spreading twice equals spreading once, and an unsupplied status or id is kept |
| Records.UpdateByIdSpec | lib/store.ts:127-130 | update-by-id keeps the length, applies the update exactly at the records with that id and leaves the others unchanged |
| Records.UpdateUnknownId | lib/store.ts:127-130 | updating an id that no record carries leaves the list unchanged |
| Records.UpdateByIdIdempotent | lib/store.ts:150-153 | an id-preserving idempotent update is idempotent as a list update |
| Records.DeleteByIdSpec | lib/store.ts:131-134 | delete-by-id keeps exactly the records without that id, in order, and is shorter by the number of records removed |
| Records.DeleteByIdIdempotent | lib/store.ts:131-134 | deleting twice equals deleting once |
| Store.AppStore.constructor | lib/store.ts:76-98 | the store starts with the default user John Smith, theme `system`, empty lists and an empty search |
| Store.AppStore.SetUser | lib/store.ts:104 | replaces the user and nothing else |
| Store.AppStore.UpdateUserProfile | lib/store.ts:105-108 | a missing user stays missing; otherwise the supplied fields overwrite the user's |
| Store.AppStore.UpdateUserPreferences | lib/store.ts:109-117 | a missing user stays missing; otherwise only the supplied preferences change |
| Store.AppStore.SetTheme | lib/store.ts:121 | replaces the theme only |
| Store.AppStore.SetAnnouncements | lib/store.ts:125 | replaces the announcements only |
| Store.AppStore.AddAnnouncement | lib/store.ts:126 | the announcements become `[a] + old` |
| Store.AppStore.UpdateAnnouncement | lib/store.ts:127-130 | the announcements become the merge-by-id of the old list |
| Store.AppStore.DeleteAnnouncement | lib/store.ts:131-134 | the announcements become the old list without that id |
| Store.AppStore.SetEvents | lib/store.ts:138 | replaces the events only |
| Store.AppStore.AddEvent | lib/store.ts:139 | the events become `[e] + old` |
| Store.AppStore.UpdateEvent | lib/store.ts:140-143 | the events become the merge-by-id of the old list |
| Store.AppStore.DeleteEvent | lib/store.ts:144 | the events become the old list without that id |
| Store.AppStore.SetNotifications | lib/store.ts:148 | replaces the notifications only |
| Store.AppStore.AddNotification | lib/store.ts:149 | the notifications become `[n] + old` |
| Store.AppStore.MarkNotificationRead | lib/store.ts:150-153 | the notifications become the old list with that id marked read |
| Store.AppStore.MarkAllNotificationsRead | lib/store.ts:154-157 | every notification is marked read and none is left unread |
| Store.AppStore.SetTeams | lib/store.ts:161 | replaces the teams only |
| Store.AppStore.SetTeamsMessages | lib/store.ts:163 | replaces the Teams messages only |
| Store.AppStore.AddTeamsMessage | lib/store.ts:164 | the Teams messages become `[m] + old` |
| Store.AppStore.SetDocuments | lib/store.ts:168 | replaces the documents only |
| Store.AppStore.SetHelpTickets | lib/store.ts:172 | replaces the tickets only |
| Store.AppStore.AddHelpTicket | lib/store.ts:173 | the tickets become `[t] + old` |
| Store.AppStore.UpdateHelpTicket | lib/store.ts:174-177 | the tickets become the merge-by-id of the old list |
| Store.AppStore.SetSearchQuery | lib/store.ts:181 | replaces the query only |
| Store.AppStore.PerformSearch | lib/store.ts:183-198 | stores the query and the three filtered lists; the empty query returns every record |
| Store.UpdateAnnouncementsSpec | lib/store.ts:127-130 | length kept; records with the id are merged with the update; all other records unchanged |
| Store.UpdateEventsSpec | lib/store.ts:140-143 | the same for events |
| Store.UpdateTicketsSpec | lib/store.ts:174-177 | the same for help tickets |
| Store.DeleteAnnouncementsSpec | lib/store.ts:131-134 | exactly the announcements without the id remain, in order |
| Store.DeleteEventsSpec | lib/store.ts:144 | exactly the events without the id remain, in order |
| Store.MarkReadSpec | lib/store.ts:150-153 | only `isRead` changes, only on records with the id; marking twice equals marking once |
| Store.MarkAllReadSpec | lib/store.ts:154-157 | length and every other field kept, nothing unread, idempotent |
| Store.NoneUnread | lib/store.ts:154-157 | a list whose records are all read has unread count 0 |
| Store.MatchesTextIgnoresCase | lib/store.ts:185-188 | lowering the query or the text does not change a match |
| Store.MatchesEmptyQuery | lib/store.ts:185-188 | every text matches the empty query |
| Store.SearchSpec | lib/store.ts:183-198 | each result list holds exactly the matching records (title/content; name for documents) as an order-preserving subsequence |
| Store.SearchEmptyQuery | lib/store.ts:183-198 | the empty query returns every list unchanged |
| Auth.AuthProvider.constructor | lib/auth-context.tsx:19-20 | the provider fixes its mock user once and starts signed in as that user, not loading |
| Auth.AuthProvider.Login | lib/auth-context.tsx:22-29 | sign-in takes no argument, restores the provider's own mock user and clears loading, so logging out and in again returns the starting user |
| Auth.AuthProvider.Logout | lib/auth-context.tsx:31-33 | afterwards there is no user, and `hasRole`/`hasDepartment` are false for every argument |
| Auth.SignedOutDenied | lib/auth-context.tsx:35-50 | without a user both predicates are false |
| Auth.SignedInChecks | lib/auth-context.tsx:35-50 | with a user, `hasRole` is list membership of the role; `hasDepartment` is true when `all` is listed, else membership of the user's department |
| Auth.AccessMonotone | lib/auth-context.tsx:35-50 | extending the role or department list never revokes access |
| I18n.EnDefinesTableKeys | lib/i18n.ts:4-87 | the English table has a non-empty entry exactly for the table keys |
| I18n.JaDefinesTableKeys | lib/i18n.ts:88-171 | the Japanese table has a non-empty entry exactly for the same keys |
| I18n.TablesDefineSameKeys | lib/i18n.ts:4-171 | both tables define the same keys |
| I18n.TableKeyTranslates | lib/i18n.ts:174-176 | for a table key `t` returns the requested language's own entry, never empty |
| I18n.UnknownKeyEchoes | lib/i18n.ts:175 | a key absent from both tables comes back unchanged |
| I18n.MissingKeysUsedByPages | lib/i18n.ts:174-176 | `helpDesk`, `inProgress` and `documents`, asked for by pages, echo as themselves |
| I18n.MissingTeamsKeys | app/teams/page.tsx:71 | `teams`, `allTeams` and `myTeams` echo as themselves |
| AnnouncementForm.InitialForm | components/admin/announcement-form.tsx:29-37 | a new form is empty with priority `general` and department `all`; an edit form copies the announcement's seven fields |
| AnnouncementForm.AiPrefilled | components/admin/announcement-form.tsx:45-49 | `titleJa`/`contentJa` become the prefixed title/content when that is non-empty, else stay; no other field changes |
| AnnouncementForm.Payload | components/admin/announcement-form.tsx:53-59 | the payload carries the toggle as `isAiGenerated` and never a status, id, author, date or override flag |
| AnnouncementForm.Form.constructor | components/admin/announcement-form.tsx:29-39 | the form starts at its initial fields, toggle off, not generating |
| AnnouncementForm.Form.SetTitle | components/admin/announcement-form.tsx:74 | only the title changes |
| AnnouncementForm.Form.SetTitleJa | components/admin/announcement-form.tsx:86 | only the Japanese title changes |
| AnnouncementForm.Form.SetContent | components/admin/announcement-form.tsx:97 | only the content changes |
| AnnouncementForm.Form.SetContentJa | components/admin/announcement-form.tsx:123 | only the Japanese content changes |
| AnnouncementForm.Form.SetPriority | components/admin/announcement-form.tsx:135 | only the priority changes |
| AnnouncementForm.Form.SetDepartment | components/admin/announcement-form.tsx:154 | only the department changes |
| AnnouncementForm.Form.SetImageUrl | components/admin/announcement-form.tsx:179 | only the image URL changes |
| AnnouncementForm.Form.SetUseAiGeneration | components/admin/announcement-form.tsx:195 | sets the AI toggle |
| AnnouncementForm.Form.HandleAiGenerate | components/admin/announcement-form.tsx:41-51 | the fields become their AI pre-fill and generation ends |
| AnnouncementForm.Form.HandleSubmit | components/admin/announcement-form.tsx:53-59 | under the browser's constraint validation, nothing is handed over iff the `required` title or content (lines 76 and 100) is empty or the `type="url"` image field (lines 176-178) holds a non-empty value the given URL check rejects; otherwise the payload of the fields and toggle, with no status |
| AnnouncementForm.AiPrefilledIdempotent | components/admin/announcement-form.tsx:45-49 | pre-filling twice equals pre-filling once |
| AnnouncementForm.PayloadKeepsModeration | components/admin/announcement-form.tsx:53-59 | merging any payload keeps the record's status, id, author and creation date |
| AnnouncementForm.UntouchedEditRoundTrip | components/admin/announcement-form.tsx:29-59 | opening a record and submitting it untouched, with the toggle set to its AI flag, merges back to the same record |
| AnnouncementForm.UntouchedEditClearsAiFlag | components/admin/announcement-form.tsx:38-59 | with the toggle at its initial off, an untouched edit clears `isAiGenerated` and changes nothing else |
| AnnouncementForm.OptionListsComplete | components/admin/announcement-form.tsx:24-25 | the selects list the six priorities and the six departments plus `all`, each once |
| AdminTable.Rows | components/admin/admin-table.tsx:54 | one row per announcement, in input order, with that announcement's id |
| AdminTable.ActionsByStatus | components/admin/admin-table.tsx:105-127 | Approve and Reject are offered iff the row is pending; Edit, Preview and Delete always |
| AdminTable.DisplayTitleChoice | components/admin/admin-table.tsx:65 | `titleJa` when Japanese and non-empty, else `title` |
| AdminTable.LabelsTranslated | components/admin/admin-table.tsx:70-81 | priority, status and department labels are the table entries for their wire names; `all` shows "allDepartments" |
| Admin.ScreenFor | app/admin/page.tsx:27-35 | the panel is shown iff the viewer has role admin or ceo; otherwise the localised access-denied text |
| Admin.NewAnnouncement | app/admin/page.tsx:43-59 | a created record is pending and not overridden, authored by Admin/admin-1, with defaults `general`, `all`, not AI-generated and an empty title |
| Admin.AdminPage.constructor | app/admin/page.tsx:22-24 | the page starts with the seed list, nothing being edited, the dialog closed |
| Admin.AdminPage.HandleSubmit | app/admin/page.tsx:37-64 | an edit merges into the target's id with a new `updatedAt`; a create prepends the new record; the dialog closes |
| Admin.AdminPage.HandleEdit | app/admin/page.tsx:66-69 | selects the record and opens the dialog |
| Admin.AdminPage.HandleCancel | app/admin/page.tsx:109-112 | closes the dialog and drops the editing target |
| Admin.AdminPage.SetFormOpen | app/admin/page.tsx:98-99 | the dialog's `onOpenChange` (Create trigger, Escape, overlay) sets only the open flag and keeps the editing target |
| Admin.AdminPage.HandleDelete | app/admin/page.tsx:71-73 | the list becomes the old list without that id |
| Admin.AdminPage.HandleApprove | app/admin/page.tsx:75-77 | records with the id become approved |
| Admin.AdminPage.HandleReject | app/admin/page.tsx:79-81 | records with the id become rejected |
| Admin.GateIgnoresLanguage | app/admin/page.tsx:27-35 | the gate depends only on `hasRole(["admin","ceo"])`, not on the language |
| Admin.CreateForcesModeration | app/admin/page.tsx:43-59 | a status, author or override flag in the payload has no effect on a created record |
| Admin.EditSpec | app/admin/page.tsx:38-41 | an edit changes only the target's records, keeps the length, and keeps every status when the payload has none |
| Admin.SetStatusSpec | app/admin/page.tsx:75-81 | approve/reject set the status exactly on the id's records, change nothing else, and are idempotent |
| Admin.TabsPartition | app/admin/page.tsx:83-187 | the three status tabs partition the list: each record sits in its status's tab, order is kept, sizes add up, and the counts are the tab sizes |
| Admin.TabSizes | app/admin/page.tsx:159-187 | the three tab sizes add up to the list length |
| Admin.SettledRowsStaySettled | components/admin/admin-table.tsx:105-127 | no action the table offers on an approved or rejected row changes any record's status |
| AnnouncementsPage.FilteredSpec | app/announcements/page.tsx:29-46 | shown iff search, priority, department filter and viewer rule all hold; order kept |
| AnnouncementsPage.OrdinaryViewerSeesOwnDepartment | app/announcements/page.tsx:39-43 | for a viewer neither admin nor ceo every shown record is company-wide or of the viewer's department |
| AnnouncementsPage.ModeratorUnrestricted | app/announcements/page.tsx:42-43 | for admin and ceo the viewer rule always holds |
| AnnouncementsPage.NoFiltersShowsAll | app/announcements/page.tsx:29-46 | for a moderator, an empty search with both filters at `all` shows the whole list |
| ApiAnnouncements.Get | app/api/announcements/route.ts:6-27 | the three conditional reassignments compute the query result |
| ApiAnnouncements.QuerySpec | app/api/announcements/route.ts:12-24 | the result holds exactly the records matching every supplied parameter, in order; with none (or department `all`) it is the whole list |
| ApiAnnouncements.ParametersByValue | app/api/announcements/route.ts:14-24 | a priority or status parameter keeps exact matches; a department other than `all` keeps that department and `all`; `all` keeps everything |
| ApiAnnouncements.Post | app/api/announcements/route.ts:30-56 | 201 exactly for a parsed body, otherwise 400 "Invalid request body"; the record is pending and not overridden |
| ApiAnnouncements.PostDefaults | app/api/announcements/route.ts:34-50 | the fallbacks `general`, `all`, System and system, and the copied fields |
| ApiEvents.Get | app/api/events/route.ts:6-23 | the two conditional reassignments compute the query result |
| ApiEvents.QuerySpec | app/api/events/route.ts:11-20 | the result holds exactly the matching events, in order; `upcoming=true` leaves only events starting at or after now; otherwise no date filter |
| ApiEvents.DepartmentByValue | app/api/events/route.ts:13-15 | a department other than `all` keeps that department and `all` |
| ApiEvents.Post | app/api/events/route.ts:26-51 | 201 exactly for a parsed body, otherwise 400; a new event never has its reminder sent |
| ApiEvents.PostDefaults | app/api/events/route.ts:30-45 | the fallbacks `all`, `general`, System, and the copied dates and flags |
| Prioritize.Classify | app/api/ai/prioritize/route.ts:13-31 | the confidence is the one fixed for the chosen priority |
| Prioritize.Handle | app/api/ai/prioritize/route.ts:5-41 | a parsed body is classified on the lowercased `title content` with its reasoning text; a malformed one gives 500 "Prioritization failed" |
| Prioritize.ClassifyPrecedence | app/api/ai/prioritize/route.ts:16-31 | the result is the first keyword group, in the order urgent, ceo, deadline, important, event, that occurs; `general` when none does |
| Prioritize.DueInsideWord | app/api/ai/prioritize/route.ts:22 | `due` anywhere, even inside a word, gives (deadline, 85) unless an urgent or ceo keyword occurs |
| Prioritize.NoKeywordIsGeneral | app/api/ai/prioritize/route.ts:13-14 | no keyword gives (general, 70) |
| Prioritize.CaseInsensitive | app/api/ai/prioritize/route.ts:11 | lowering the title and content first does not change the classified text |
| Chatbot.TitleLines | app/api/chatbot/route.ts:20-29 | one bullet per announcement or event, in order: `titleJa` in Japanese when non-empty, else `title` |
| Chatbot.Handle | app/api/chatbot/route.ts:5-49 | 500 "Chatbot error" exactly for a malformed body or a missing message; otherwise 200 with the three fixed suggested actions |
| Chatbot.TopicPrecedence | app/api/chatbot/route.ts:14-40 | announcements before events before help before the default, each by its keywords |
| Chatbot.RelevantAnnouncementsSpec | app/api/chatbot/route.ts:15-17 | exactly the first min(3, n) of the n visible announcements, in order, each company-wide or of the given department; without a department simply the first three |
| Chatbot.EventReplyIgnoresDepartment | app/api/chatbot/route.ts:24-29 | the event reply depends on neither the department nor the announcements, and any two event lists with the same first three events give the same reply |
| Chatbot.CaseInsensitive | app/api/chatbot/route.ts:10 | lowering the message does not change the reply |
| Chatbot.LanguageDefaultsToEnglish | app/api/chatbot/route.ts:8 | a missing language replies as `en` |
| Generate.Prefix100 | app/api/ai/generate/route.ts:21-22 | the first min(100, length) characters |
| Generate.Handle | app/api/ai/generate/route.ts:4-39 | 500 "Generation failed" exactly for a malformed body or a summary of a missing content; otherwise confidence 95, priority `general`, empty text for an unknown type |
| Generate.TranslatedShape | app/api/ai/generate/route.ts:14-16 | the language's translation prefix followed by the content |
| Generate.SummaryShape | app/api/ai/generate/route.ts:17-22 | prefix, first min(100, length) characters, then `...` |
| Generate.AnnouncementRoundTrip | app/api/ai/generate/route.ts:23-28 | the content sits between the language's fixed header and footer and can be read back from the text |
| GraphTeams.Get | app/api/graph/teams/route.ts:5-31 | the filter then slice computes the listing; the metadata source is `mock` |
| GraphTeams.ListedSpec | app/api/graph/teams/route.ts:14-22 | exactly the first min(limit, n) of the n channel matches (limit 10 by default), in source order, each channel name containing the parameter case-insensitively |
| GraphTeams.Post | app/api/graph/teams/route.ts:34-49 | a parsed body gives success with the clock's id; a malformed one 500 "Failed to send message" |
| NotificationSend.Outgoing | app/api/notifications/send/route.ts:15-24 | scheduled iff `scheduledFor` is set, `sentAt` absent iff scheduled, the body's fields echoed |
| NotificationSend.Handle | app/api/notifications/send/route.ts:4-34 | success with that record for a parsed body, else 500 "Failed to send notification" |
| NotificationSend.ScheduleOnlyAffectsDelivery | app/api/notifications/send/route.ts:21-23 | scheduling changes only `scheduledFor`, the status and `sentAt` |
| NotificationsPage.Page.constructor | app/notifications/page.tsx:18 | the page starts with the seed list |
| NotificationsPage.Page.MarkAsRead | app/notifications/page.tsx:20-22 | the list becomes its mark-read-by-id, and the unread count does not rise |
| NotificationsPage.Page.MarkAllAsRead | app/notifications/page.tsx:24-26 | everything is read, the count is 0, and mark-all is no longer offered |
| NotificationsPage.Page.DeleteNotification | app/notifications/page.tsx:28-30 | the list becomes the old list without that id |
| NotificationsPage.Page.Unread | app/notifications/page.tsx:32 | the unread count, at most the list length |
| NotificationsPage.UnreadCountZero | app/notifications/page.tsx:32 | the count is 0 exactly when every notification is read |
| NotificationsPage.MarkAllOfferedIffSomeUnread | app/notifications/page.tsx:48-49 | mark-all is offered exactly when some item offers its own mark-as-read |
| NotificationsPage.MarkReadNeverAddsUnread | app/notifications/page.tsx:20-22 | marking one id read never raises the unread count |
| NotificationsPage.DeleteNotificationsSpec | app/notifications/page.tsx:28-30 | exactly the others remain, in order; deleting twice equals deleting once |
| HelpDesk.Page.constructor | app/help-desk/page.tsx:48-59 | seed tickets, empty search, nothing selected, dialog closed, empty form with category IT Support and priority medium |
| HelpDesk.Page.SetSearchQuery | app/help-desk/page.tsx:141 | sets the search |
| HelpDesk.Page.SelectTicket | app/help-desk/page.tsx:260 | selects the ticket |
| HelpDesk.Page.SetCreateOpen | app/help-desk/page.tsx:145 | opens or closes the dialog |
| HelpDesk.Page.SetNewTicket | app/help-desk/page.tsx:166 | replaces the form |
| HelpDesk.Page.SetReplyContent | app/help-desk/page.tsx:362 | replaces the reply text |
| HelpDesk.Page.HandleCreateTicket | app/help-desk/page.tsx:67-90 | nothing happens without a title and a description; otherwise the new ticket is prepended and the form resets and closes |
| HelpDesk.Page.HandleReply | app/help-desk/page.tsx:92-112 | nothing happens for a blank reply or no selection; otherwise the replied ticket replaces the id's tickets and stays selected, and the box clears |
| HelpDesk.NewTicketSpec | app/help-desk/page.tsx:73-84 | a new ticket is open, without responses, with the form's fields, signed by the user's name or "User" |
| HelpDesk.ReplySpec | app/help-desk/page.tsx:95-110 | exactly one non-staff response appended at the end, earlier ones kept; only the selected id's tickets are replaced |
| HelpDesk.BlankReplyIgnored | app/help-desk/page.tsx:93 | a reply is ignored iff it is all whitespace |
| HelpDesk.FilteredTicketsSpec | app/help-desk/page.tsx:61-65 | exactly the tickets whose title or description contains the query case-insensitively, in order; the empty query keeps all |
| Documents.FindFolder | app/documents/page.tsx:85 | a found entry is a folder of that name from the list |
| Documents.Page.constructor | app/documents/page.tsx:74-75 | starts at the root with an empty search |
| Documents.Page.CurrentDocuments | app/documents/page.tsx:78-91 | the loop computes the walk of the path from the root |
| Documents.Page.FilteredDocuments | app/documents/page.tsx:93-95 | the name-filtered listing of the current level |
| Documents.Page.SetSearchQuery | app/documents/page.tsx:132 | sets the search |
| Documents.Page.HandleFolderClick | app/documents/page.tsx:97-101 | only a folder appends its name to the path |
| Documents.Page.HandleBreadcrumbClick | app/documents/page.tsx:103-105 | the path becomes its prefix of length `index` |
| Documents.Page.HandleRootClick | app/documents/page.tsx:161 | the path empties and the root is shown |
| Documents.FindFolderSpec | app/documents/page.tsx:85 | the first folder with the name, and none exactly when no folder has it |
| Documents.UnknownPartStays | app/documents/page.tsx:84-89 | a part naming no folder with children leaves the level as it is |
| Documents.WalkAppend | app/documents/page.tsx:83-90 | walking `p + q` is walking `q` from the end of `p` |
| Documents.FolderClickShowsChildren | app/documents/page.tsx:85-87 | entering the first folder of a name that has children shows those children |
| Documents.BreadcrumbShowsPrefix | app/documents/page.tsx:103-105 | the walk of the path continues the walk of each of its prefixes |
| Documents.ListingSpec | app/documents/page.tsx:93-95 | exactly the documents whose name contains the query case-insensitively, in order |
| Documents.IconAndColorDefaults | app/documents/page.tsx:37-69 | `doc` gets the default icon and `image` the default colour, and no other type does |
| TeamsPage.Page.constructor | app/teams/page.tsx:22-25 | no channel selected, empty input and search, the seed messages |
| TeamsPage.Page.SelectChannel | app/teams/page.tsx:126 | selects the channel |
| TeamsPage.Page.SetMessageInput | app/teams/page.tsx:216 | replaces the input |
| TeamsPage.Page.SetSearchQuery | app/teams/page.tsx:82 | sets the search |
| TeamsPage.Page.HandleSendMessage | app/teams/page.tsx:35-51 | nothing happens for blank input or no channel; otherwise the message is prepended and the input clears |
| TeamsPage.FilteredTeamsSpec | app/teams/page.tsx:27-31 | a team is listed iff its name or some channel name contains the query; order kept |
| TeamsPage.ChannelMessagesSpec | app/teams/page.tsx:33 | exactly the messages with the selected channel's id, in order; none without a selection |
| TeamsPage.SentMessageShowsFirst | app/teams/page.tsx:38-49 | a sent message carries the channel's id and team id and comes first in that channel |
| TeamsPage.AgeBuckets | app/teams/page.tsx:53-64 | under a minute "just now", then whole minutes below an hour, whole hours below a day, then a date |
| Home.FeedSpec | app/page.tsx:24-26 | exactly the company-wide and own-department announcements, in order, with no role exception |
| Home.WithPrioritySpec | app/page.tsx:28-29 | the priority sub-list is the order-preserving selection of that priority |
| Home.ViewSpec | app/page.tsx:24-192 | the feed and event counts; the urgent, recent, department (never `all`) and event sections are the first min(3, n), min(4, n), min(3, n) and min(3, n) items of their source lists |
| Home.FeaturedCeoIsFirst | app/page.tsx:102-103 | the featured item is the first ceo item of the feed, and there is none iff the feed has no ceo item |
| Dashboard.ViewSpec | app/dashboard/page.tsx:25-99 | the `all` tab holds exactly the company-wide and own-department announcements, in order, and the badge counts it; urgent and important tabs are its sub-lists in order; the events tab shows all events |
| Departments.DepartmentAnnouncementsSpec | app/departments/page.tsx:48 | exactly the announcements of that department, in order; the badge counts them |
| Departments.DirectoryExcludesAll | app/departments/page.tsx:27 | the six departments, without `all`, each once |
| Departments.BadgesSum | app/departments/page.tsx:45-69 | the six badges sum to the number of announcements not addressed to `all` |
| Departments.SixBadges | app/departments/page.tsx:48 | the six per-department counts sum to the non-`all` count |
| Departments.SumBadgesUnfold | app/departments/page.tsx:45-48 | the badge sum over the directory is the six named counts |
| EventsPage.Partition | app/events/page.tsx:19-60 | upcoming (start ≥ today) and past (start < today) split the events, in order, and their sizes add up |
| DashboardHeader.DayParts | components/dashboard/dashboard-header.tsx:12-24 | over 0-23: morning below 12, afternoon 12-17, evening from 18 |
| DashboardHeader.GreetingMonotone | components/dashboard/dashboard-header.tsx:13-24 | the greeting only moves forward through the day |
| DashboardHeader.DisplayNameIsFirstWord | components/dashboard/dashboard-header.tsx:29 | the shown name is the user's name up to the first space |
| DashboardHeader.FirstWordWhole | components/dashboard/dashboard-header.tsx:29 | a name without a space is shown whole |

## Left out

- Rendering, styling, animation and layout: the JSX and motion effects. The
  presentational components (layout, cards, skeletons, quick links, banner)
  are not part of this model.
- Simulated delays (`setTimeout`) are dropped. So are the intermediate
  loading flags they bracket; only the state after an action finishes is
  modelled.
- Clocks, `Date.now()` and `new Date()` are the parameter `now`. The
  source's timestamps are ISO strings; here they are integers, and the
  comparisons with `today` and `now` are integer comparisons.
- Locale date formatting (`toLocaleDateString`) is left out.
  `TeamsPage.AgeText` returns no text for the date bucket.
- The zustand `persist` middleware and localStorage are persistence, not
  behaviour.
- The client `fetch` of the chat widget, the Microsoft Graph and Entra
  placeholders, and analytics are network I/O.
- The second chatbot component picks its reply with `Math.random`, so it has
  no stateable behaviour.
- The settings, profile and login pages call `updateProfile`,
  `login(email, password)` and `loginWithMicrosoft`. None of these exist in
  the auth provider shown, so those pages are not modelled.
- The mock datasets from lib/mock-data are parameters, not constants.
- `undefined` and `""` are one value for optional strings. A `Partial<T>`
  key set explicitly to `undefined` is treated as absent, whereas the spread
  would copy `undefined` over the field.
- The POST routes read `priority` and `department` as typed values
  (`Option<Priority>` / `Option<Department>`). A body carrying some other
  string is not modelled; the source would copy it unchecked.
- `toLowerCase` is an ASCII map. Non-ASCII case folding is not modelled; the
  Japanese keywords are unaffected by it in the source too.
- `substring(0, 100)` counts UTF-16 code units in the source and characters
  here. The two differ only for characters outside the Basic Multilingual
  Plane.
- GraphTeams.Get: the limit is a natural number. `parseInt` producing `NaN`
  (empty result) or a negative limit (slice from the end) is not modelled.
- Admin.AdminPage.HandleSubmit and the other admin handlers require the panel
  screen. The source renders no handler for any other viewer, so they cannot
  be reached.
- Documents.Page.CurrentDocuments follows the code, not a "first folder with
  children" reading. It takes the first folder with the name, then descends
  iff that folder's `children` is defined; an empty list is defined, so the
  walk descends into it. A later folder of the same name with children is
  never consulted.
- The store's `teams` and `documents` are only ever set wholesale, and the
  model has no other operation on them.
