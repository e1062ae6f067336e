# expo-flow-manage-exhibitor — a verified model of the exhibition back office

This Dafny project models the logic that sits under the forms and tables of
the exhibition management app. The app is a Next.js site where admins,
organizers and exhibitors manage the following for each project (an event):

- participants and their attendance;
- conference sessions;
- exhibitors and their staff;
- settings, rooms and invitation codes.

The model covers these parts:

- **The in-memory store** (`MockStore.MockService`). It holds mutable lists of
  projects, organizers, participants, conferences, exhibitors, staff and
  invitation codes:
  - create appends a record with a fresh id;
  - update merges a patch into the record at its index, or fails with
    "… not found";
  - delete filters by id, and deleting an exhibitor also removes its staff.
  
  Staff ids are `exhibitorId-NN`, where NN is the exhibitor's current staff
  count plus one. After a delete, such an id can repeat a surviving one.
  `CollisionAfterDelete` shows this.
- **The exhibitor portal's staff gate** (`StaffPortal`). The quota is
  `quota + over_quota`. Fullness comes from the server flag, or else from the
  member count. The edit window is the cutoff status. Both feed the dialog
  handlers and the button states.
- **The title picker** (`Titles`), shared by both staff dialogs. It is proved
  to round-trip a stored title through the edit form.
- **The staff list of the organizer's exhibitor page** (`StaffAdmin`).
- **The exhibitor form** (`ExhibitorForm`): its schema, its default values and
  its payload.
- **The server actions**:
  - `ParticipantActions`: the scanner import with its counting, and the
    participant import;
  - `SettingsActions`: settings and rooms;
  - `OrganizerActions`: the username check and the edit;
  - `ConferenceActions`: form decoding and the conference import.
- **The pages and components**:
  - `ConferenceExcel`: the Excel row mapping;
  - `ConferenceList`: filtering, grouping by day and the sorted days;
  - `ProjectsPage`: project search, counters and prepending a created project;
  - `CountrySelector`: the country order and lookup.
- **The middleware's route decision** (`Middleware`), the expired-session
  classifier (`AuthHelpers`) and the client session store (`AuthStore`).

Helper modules build each concept once:

- `Wrappers`: `Option`, `Result`, and JavaScript's `x || d`;
- `Strings`: ASCII lower-casing, substring search, lexicographic order, trim,
  decimal printing, and `parseInt`;
- `Lists`: filter, find, and order-preserving subsequences;
- `Sorting`: the sorted copy `[...s].sort(cmp)`, as an insertion sort with a
  permutation and order proof;
- `FormData`: a submitted form, as a map from field names to text.

A few conventions hold throughout the model:

- Dates are their `yyyy-MM-dd` keys, ordered lexicographically.
- The clock is a `now` parameter.
- `uuidv4` is a counter of issued ids read through `MockStore.FreshId`.
- Answers from the server or from the browser are parameters.

## Model

| member | source | states |
|---|---|---|
| MockStore.FreshId | src/lib/mock-service.ts:526 | a fresh id is `uuid-` followed by the draw number |
| MockStore.FreshIdInjective | src/lib/mock-service.ts:526 | distinct draws give distinct ids |
| MockStore.StaffId | src/lib/mock-service.ts:722-734 | a staff id is the exhibitor id, `-`, and at least two digits |
| MockStore.SequenceDigitsValue | src/lib/mock-service.ts:726-728 | the padded sequence digits read back as the sequence number |
| MockStore.StaffIdSequence | src/lib/mock-service.ts:722-734 | the part after the exhibitor id parses, base 10, to the sequence number |
| MockStore.StaffIdInjective | src/lib/mock-service.ts:722-734 | equal staff ids have the same exhibitor and sequence number |
| MockStore.SmallSequenceDigits | src/lib/mock-service.ts:726-728 | sequence numbers 1 to 9 are padded with one leading `0` |
| MockStore.WithNewStaff | src/lib/mock-service.ts:722-734 | `createStaff` appends one record with the given data; its id uses the exhibitor's current staff count plus one |
| MockStore.FirstStaffIds | src/lib/mock-service.ts:722-734 | sequence numbers 1, 2, 3 of `ex-1` give `ex-1-01`, `ex-1-02`, `ex-1-03` |
| MockStore.ThreeStaffFromEmpty | src/lib/mock-service.ts:722-734 | from no staff, three creates give sequence numbers 1, 2, 3 |
| MockStore.CollisionAfterDelete | src/lib/mock-service.ts:722-745 | with `-01` and `-02`, deleting `-01` then creating issues `-02` a second time |
| MockStore.Summaries | src/lib/mock-service.ts:671-680 | one summary per exhibitor, in order: the k-th summary is the k-th exhibitor with the number of staff carrying its id |
| MockStore.NewParticipants | src/lib/mock-service.ts:593-601 | the records appended for a batch: one per item, in order, with consecutive fresh ids |
| MockStore.ByDateIsTotalPreorder | src/lib/mock-service.ts:641 | the comparator by date is total and transitive |
| MockStore.ProjectPatchLaws | src/lib/mock-service.ts:533-538 | a merge is idempotent; the empty merge changes nothing; a supplied key overrides and an absent one keeps the value |
| MockStore.ParticipantPatchLaws | src/lib/mock-service.ts:603-609 | the same merge laws for participants |
| MockStore.ConferencePatchLaws | src/lib/mock-service.ts:658-664 | the same merge laws; a patch without `projectId` keeps the project |
| MockStore.ExhibitorPatchLaws | src/lib/mock-service.ts:701-706 | the same merge laws for exhibitors |
| MockStore.StaffPatchLaws | src/lib/mock-service.ts:736-741 | the same merge laws; a patch without `exhibitorId` keeps the owner |
| MockStore.MockService.constructor | src/lib/mock-service.ts:123-507 | the store starts with the given lists and no ids issued |
| MockStore.MockService.NextId | src/lib/mock-service.ts:526 | each draw gives the next fresh id |
| MockStore.MockService.FindUserByUsername | src/lib/mock-service.ts:510-512 | a user with that username from the fixed user table, or none iff no user has it |
| MockStore.MockService.GetProjectById | src/lib/mock-service.ts:519-521 | the first project with that id, or none iff none has it |
| MockStore.MockService.CreateProject | src/lib/mock-service.ts:523-531 | appends the record with the next fresh id; nothing else changes |
| MockStore.MockService.UpdateProject | src/lib/mock-service.ts:533-538 | "Project not found" and no change when no record has the id; otherwise only that index changes, to the merge |
| MockStore.MockService.DeleteProject | src/lib/mock-service.ts:540-542 | keeps exactly the records with another id, in order |
| MockStore.MockService.CreateOrganizer | src/lib/mock-service.ts:549-557 | appends the record with the next fresh id |
| MockStore.MockService.UpdateOrganizer | src/lib/mock-service.ts:559-565 | "Organizer not found" and no change, or the merge at that index only |
| MockStore.MockService.DeleteOrganizer | src/lib/mock-service.ts:567-569 | keeps exactly the records with another id, in order |
| MockStore.MockService.GetParticipants | src/lib/mock-service.ts:572-591 | a participant is listed iff it belongs to the project; if a type other than empty or `ALL` is given, it has that type; if the query is non-empty, the query occurs, ignoring case, in its first name, last name, email, company or code |
| MockStore.ParticipantsUnfiltered | src/lib/mock-service.ts:572-591 | with no query and no type or `ALL`, only the project restricts the list |
| MockStore.MockService.CreateParticipant | src/lib/mock-service.ts:593-601 | appends the record with the next fresh id |
| MockStore.MockService.UpdateParticipant | src/lib/mock-service.ts:603-609 | "Participant not found" and no change, or the merge at that index only |
| MockStore.Marked | src/lib/mock-service.ts:614 | the marked record has the new `attended` flag and every other field as before |
| MockStore.WithAttendance | src/lib/mock-service.ts:611-616 | only the first participant whose code is exactly the given one is marked; every other participant is unchanged, and nothing changes when none matches |
| MockStore.MockService.UpdateAttendance | src/lib/mock-service.ts:611-616 | the participants become `WithAttendance` of the old ones, and the marked record is returned, or nothing when no code matches |
| MockStore.MockService.DeleteParticipant | src/lib/mock-service.ts:618-620 | keeps exactly the records with another id, in order |
| MockStore.MockService.CreateManyParticipants | src/lib/mock-service.ts:622-629 | returns the number of items and appends one record per item, in order |
| MockStore.MockService.FindParticipantByCode | src/lib/mock-service.ts:631-633 | the first participant whose code equals the given one ignoring case, or none iff there is no such participant |
| MockStore.AttendanceCodeIsFound | src/lib/mock-service.ts:611-633 | a code `updateAttendance` matches is found by `findParticipantByCode` too |
| MockStore.MockService.GetConferences | src/lib/mock-service.ts:640-642 | exactly the project's conferences, as a permutation, in ascending date order |
| MockStore.MockService.GetConferenceById | src/lib/mock-service.ts:644-646 | the first conference with that id, or none iff none has it |
| MockStore.MockService.CreateConference | src/lib/mock-service.ts:648-656 | appends the record with the next fresh id |
| MockStore.MockService.UpdateConference | src/lib/mock-service.ts:658-664 | "Conference not found" and no change, or the merge at that index only |
| MockStore.MockService.DeleteConference | src/lib/mock-service.ts:666-668 | keeps exactly the records with another id, in order |
| MockStore.MockService.GetExhibitors | src/lib/mock-service.ts:671-680 | the project's exhibitors in store order, one summary each, with `_count.staff` equal to that exhibitor's number of staff |
| MockStore.MockService.GetExhibitorById | src/lib/mock-service.ts:682-689 | the first exhibitor with that id, with exactly its staff, or none iff none has it |
| MockStore.MockService.CreateExhibitor | src/lib/mock-service.ts:691-699 | appends the record with the next fresh id |
| MockStore.MockService.UpdateExhibitor | src/lib/mock-service.ts:701-706 | "Exhibitor not found" and no change, or the merge at that index only |
| MockStore.MockService.DeleteExhibitor | src/lib/mock-service.ts:708-711 | removes the exhibitor and every staff member with its id |
| MockStore.MockService.GetStaffByExhibitorId | src/lib/mock-service.ts:714-716 | exactly the staff of that exhibitor |
| MockStore.MockService.GetStaffById | src/lib/mock-service.ts:718-720 | the first staff member with that id, or none iff none has it |
| MockStore.MockService.CreateStaff | src/lib/mock-service.ts:722-734 | appends the member whose id is the exhibitor id and its current staff count plus one |
| MockStore.MockService.UpdateStaff | src/lib/mock-service.ts:736-741 | "Staff not found" and no change, or the merge at that index only |
| MockStore.MockService.DeleteStaff | src/lib/mock-service.ts:743-745 | keeps exactly the members with another id, in order |
| MockStore.MockService.UpdateSettings | src/lib/mock-service.ts:752-755 | the settings become the merge of the patch and are returned |
| MockStore.MockService.CreateInvitationCode | src/lib/mock-service.ts:762-771 | appends a code with the next fresh id that always starts unused |
| MockStore.MockService.UpdateInvitationCode | src/lib/mock-service.ts:773-778 | "Invitation code not found" and no change, or the merge at that index only |
| MockStore.MockService.DeleteInvitationCode | src/lib/mock-service.ts:780-782 | keeps exactly the codes with another id, in order |
| MockStore.DeleteRemovesExactly | src/lib/mock-service.ts:540-542 | a delete keeps a record iff it has another id, and works piecewise on a concatenation, so order is kept |
| MockStore.DeleteAbsentId | src/lib/mock-service.ts:540-542 | deleting an id no record has changes nothing |
| Lists.Find | src/lib/mock-service.ts:632 | `find` gives the first element that passes the test, or none iff no element passes |
| Sorting.Sort | src/lib/mock-service.ts:641 | the sorted copy is a permutation of its input, ordered by the comparator |
| StaffPortal.Decide | src/components/exhibitor/portal-staff-management.tsx:136-178 | a closed window refuses every action first; only adding is refused when the quota is full |
| StaffPortal.OrZero | src/components/exhibitor/portal-staff-management.tsx:128 | the zero default on an optional quota: the value, or 0 when missing |
| StaffPortal.TotalQuota | src/components/exhibitor/portal-staff-management.tsx:128 | quota plus over-quota, each 0 when missing, and 0 without exhibitor info |
| StaffPortal.IsQuotaFull | src/components/exhibitor/portal-staff-management.tsx:130 | the server's `is_quota_full` when sent, otherwise staff count at least the total quota |
| StaffPortal.IsPastCutoff | src/components/exhibitor/portal-staff-management.tsx:134 | past the cutoff iff a cutoff status is given and it is not editable |
| StaffPortal.SlotsRemaining | src/components/exhibitor/portal-staff-management.tsx:462 | the total quota minus the staff count, as the dialog shows it |
| StaffPortal.AddDisabled | src/components/exhibitor/portal-staff-management.tsx:345 | the Add button is disabled iff past the cutoff or full |
| StaffPortal.RowButtonDisabled | src/components/exhibitor/portal-staff-management.tsx:434-443 | the row buttons are disabled iff past the cutoff |
| StaffPortal.ButtonsAgreeWithGate | src/components/exhibitor/portal-staff-management.tsx:345 | Add is disabled iff past cutoff or full; Edit and Toggle are disabled iff past cutoff; each matches its handler's refusal |
| StaffPortal.TotalQuotaOfMissing | src/components/exhibitor/portal-staff-management.tsx:128 | a missing quota or over-quota counts as 0 |
| StaffPortal.ServerFlagWins | src/components/exhibitor/portal-staff-management.tsx:130 | when the server sends `is_quota_full`, it decides fullness |
| StaffPortal.SlotsWhenCounted | src/components/exhibitor/portal-staff-management.tsx:130 | without the server flag, the quota is not full iff at least one slot remains |
| StaffPortal.InactiveMembersCount | src/components/exhibitor/portal-staff-management.tsx:129 | (de)activating a member changes neither the count nor fullness |
| StaffPortal.NoCutoffIsOpen | src/components/exhibitor/portal-staff-management.tsx:134 | with no cutoff status the window is open, and every action but adding is allowed |
| StaffPortal.EditForm | src/components/exhibitor/portal-staff-management.tsx:153-165 | the edit form's country code is never empty and keeps the member's own code |
| StaffPortal.AddForm | src/components/exhibitor/portal-staff-management.tsx:180-192 | the add form starts blank with code `66`, taking the company from the exhibitor |
| StaffPortal.SubmitRequest | src/components/exhibitor/portal-staff-management.tsx:199-228 | nothing is sent without an exhibitor uuid; otherwise the payload carries it and the final title, as an update iff a member is being edited |
| StaffPortal.ToggleRequest | src/components/exhibitor/portal-staff-management.tsx:239-248 | a toggle is sent iff the window is open and there is an exhibitor uuid |
| StaffPortal.ToggleIgnoresQuota | src/components/exhibitor/portal-staff-management.tsx:239-248 | the toggle does not depend on the quota |
| StaffPortal.EditUnchangedSendsSameMember | src/components/exhibitor/portal-staff-management.tsx:144-203 | editing a member and submitting unchanged sends its own title and fields back |
| StaffPortal.PortalStaffManagement.constructor | src/components/exhibitor/portal-staff-management.tsx:98-121 | the component starts closed with a blank form |
| StaffPortal.PortalStaffManagement.ReceiveMembers | src/components/exhibitor/portal-staff-management.tsx:124-126 | the list follows the `members` prop |
| StaffPortal.PortalStaffManagement.HandleOpenDialog | src/components/exhibitor/portal-staff-management.tsx:136-197 | a refusal changes nothing; otherwise the dialog opens with the edit or add form and title |
| StaffPortal.PortalStaffManagement.HandleSelectTitle | src/components/exhibitor/portal-staff-management.tsx:472-481 | the picker becomes the chosen title |
| StaffPortal.PortalStaffManagement.HandleCustomTitle | src/components/exhibitor/portal-staff-management.tsx:497 | typing sets only the custom text |
| StaffPortal.PortalStaffManagement.HandleSubmit | src/components/exhibitor/portal-staff-management.tsx:199-237 | sends the request; a sent and successful request closes the dialog |
| StaffPortal.EditWithoutChanges | src/components/exhibitor/portal-staff-management.tsx:136-237 | opening a member and submitting at once sends an update of that member with its own title |
| Titles.TitleStateFor | src/components/staff-management.tsx:83-107 | the shown title is standard, `Other` or empty, and the Other flag is set iff `Other` is shown |
| Titles.IsStandard | src/components/staff-management.tsx:65-83 | a title is standard iff it is one of `Mr.`, `Ms.`, `Mrs.`, `Dr.`, `Prof.`, `Miss` |
| Titles.FinalTitle | src/components/staff-management.tsx:127 | the submitted title is the custom text when `Other` is chosen, otherwise the chosen title |
| Titles.SelectTitle | src/components/staff-management.tsx:275-283 | choosing `Other` sets the flag and keeps the text; any other choice clears both |
| Titles.TypeCustomTitle | src/components/staff-management.tsx:300 | typing changes only the custom text |
| Titles.TitleRoundTrip | src/components/staff-management.tsx:83-127 | the final title of an opened title is that title |
| Titles.StandardTitleShown | src/components/staff-management.tsx:83-107 | a standard title is shown as itself, with no Other flag and no custom text |
| Titles.OtherTitleShown | src/components/staff-management.tsx:88-104 | a non-empty non-standard title shows `Other`, sets the flag and copies the title into the custom text |
| Titles.EmptyTitleShown | src/components/staff-management.tsx:85-107 | an empty title shows nothing and gives back an empty title |
| Titles.SelectStandardGivesIt | src/components/staff-management.tsx:279-283 | choosing a standard title submits exactly that title |
| Titles.SelectOtherGivesTyped | src/components/staff-management.tsx:276-278 | choosing `Other` and typing submits the typed text |
| StaffAdmin.SubmitRequest | src/components/staff-management.tsx:124-146 | creates with the payload and the exhibitor id when not editing; otherwise updates the edited id without an exhibitor id |
| StaffAdmin.FormOf | src/components/staff-management.tsx:92-99 | the edit form holds the member's first and last name, position, email and mobile |
| StaffAdmin.CreateAndUpdateSendSamePayload | src/components/staff-management.tsx:129-146 | the update writes the same fields the create would, keeping the owner |
| StaffAdmin.EditUnchangedIsIdentity | src/components/staff-management.tsx:80-146 | editing a member and submitting unchanged leaves its record as it was |
| StaffAdmin.StaffManagement.constructor | src/components/staff-management.tsx:41-63 | the list starts empty and loading, with the dialog closed and the form blank |
| StaffAdmin.StaffManagement.FetchStaff | src/components/staff-management.tsx:67-74 | the list is replaced only on success; loading ends either way |
| StaffAdmin.StaffManagement.HandleOpenDialog | src/components/staff-management.tsx:80-122 | opens the dialog with the member's fields and title picker, or a blank form |
| StaffAdmin.StaffManagement.HandleSelectTitle | src/components/staff-management.tsx:275-283 | the picker becomes the chosen title |
| StaffAdmin.StaffManagement.HandleCustomTitle | src/components/staff-management.tsx:300 | typing changes only the custom text |
| StaffAdmin.StaffManagement.HandleSubmit | src/components/staff-management.tsx:124-155 | sends the request; success closes the dialog |
| StaffAdmin.StaffManagement.HandleDelete | src/components/staff-management.tsx:157-173 | a successful delete keeps exactly the other entries, in order |
| ExhibitorForm.Issues | src/components/exhibitor-form.tsx:26-43 | there is a message for a company name under 2 characters, a present non-empty invalid email, and each negative quota, iff that fault is present |
| ExhibitorForm.Valid | src/components/exhibitor-form.tsx:26-43 | the schema passes iff it reports no issue |
| ExhibitorForm.DefaultValues | src/components/exhibitor-form.tsx:56-92 | the edited exhibitor's values with missing strings as `''`, or a blank form with zero quotas |
| ExhibitorForm.ValidBounds | src/components/exhibitor-form.tsx:26-43 | the values pass iff the name has at least 2 characters, both quotas are at least 0, and the email is absent, empty or valid |
| ExhibitorForm.Payload | src/components/exhibitor-form.tsx:99-110 | name and company name are the company name; booth, contact, email and phone are the value or `''`; the quotas and project are passed on |
| ExhibitorForm.Submit | src/components/exhibitor-form.tsx:112-117 | an update of the opened exhibitor iff there is one, otherwise a create |
| ExhibitorForm.NewFormDefaults | src/components/exhibitor-form.tsx:75-92 | a new form is blank with both quotas 0, and fails the schema |
| ExhibitorForm.EditFormCopies | src/components/exhibitor-form.tsx:56-74 | an edit form copies the company and quotas and turns missing strings into `''` |
| ExhibitorForm.EditUnchangedKeeps | src/components/exhibitor-form.tsx:56-117 | saving an opened exhibitor unchanged writes back its company, booth, contact, email, phone, quotas and project |
| FormData.Get | src/app/actions/organizer.ts:18-21 | a field is present iff the form has it, with the submitted text |
| FormData.Text | src/app/actions/settings.ts:19-23 | the submitted text, or `''` when the field is absent |
| ParticipantActions.SplitLines | src/app/actions/participant.ts:129 | at least one piece, and no piece holds a line feed |
| ParticipantActions.SplitJoinLines | src/app/actions/participant.ts:129 | without carriage returns, joining the pieces with line feeds gives the text back |
| ParticipantActions.DropCarriageReturn | src/app/actions/participant.ts:129 | a CRLF break loses only its carriage return |
| ParticipantActions.ScannerCodes | src/app/actions/participant.ts:129 | every code is a non-empty trimmed line of the file, and every non-blank line gives its trimmed code |
| ParticipantActions.SplitLinesAfterBreak | src/app/actions/participant.ts:129 | a first line ended by `\n` or `\r\n` is the first piece, and the rest splits on its own |
| ParticipantActions.SplitLinesSingle | src/app/actions/participant.ts:129 | a text without a line feed is one piece |
| ParticipantActions.ScannerCodesSingleLine | src/app/actions/participant.ts:129 | one line gives its trimmed text, or no code when it is blank |
| ParticipantActions.ScannerCodesAfterBreak | src/app/actions/participant.ts:129 | the codes of a file are those of its first line followed by those of the rest, so every non-blank line is one code, in order |
| ParticipantActions.RepeatedLineReadTwice | src/app/actions/participant.ts:129 | a code on two lines is read twice, and `processed` counts it twice |
| ParticipantActions.AttendAll | src/app/actions/participant.ts:131-141 | the count of updated codes is at most the number of codes; ids and codes are kept |
| ParticipantActions.AttendAllStep | src/app/actions/participant.ts:132-140 | one more code marks that code and counts it iff a participant had it |
| ParticipantActions.SameCodesSameKnown | src/app/actions/participant.ts:136 | whether a code is found depends only on the participants' codes |
| ParticipantActions.SameCodesSameIndex | src/app/actions/participant.ts:136 | where a code is found depends only on the participants' codes |
| ParticipantActions.AttendAllMarks | src/app/actions/participant.ts:131-141 | the first participant carrying a scanned code ends up marked attended with nothing else changed; every other participant is unchanged |
| ParticipantActions.UpdatedCountsKnownCodes | src/app/actions/participant.ts:131-141 | `updated` is the number of codes, repeats included, that some participant carries |
| ParticipantActions.RepeatedCodeCountsTwice | src/app/actions/participant.ts:131-141 | a known code scanned twice counts twice |
| ParticipantActions.UnknownCodesChangeNothing | src/app/actions/participant.ts:131-141 | codes no participant carries change nothing and count 0 |
| ParticipantActions.MarkAttendance | src/app/actions/participant.ts:131-141 | the loop leaves the participants and the count of its specification |
| ParticipantActions.ProcessScannerData | src/app/actions/participant.ts:118-143 | a missing file or project returns the error and changes nothing; otherwise `processed` is the number of codes and `updated` is the count, and the participants are those `AttendAll` leaves, across all projects |
| ParticipantActions.FormatRow | src/app/actions/participant.ts:95-106 | a missing or empty type becomes `INDIVIDUAL`; the other fields are copied and attendance is dropped |
| ParticipantActions.FormatRows | src/app/actions/participant.ts:95-106 | one formatted row per input row, in order |
| ParticipantActions.ImportParticipants | src/app/actions/participant.ts:93-111 | the count is the number of rows, and one participant per row is appended |
| ParticipantActions.ImportedKindsNonEmpty | src/app/actions/participant.ts:97 | every imported participant has a non-empty type |
| SettingsActions.SettingsUpdate | src/app/actions/settings.ts:17-39 | site, title and subtitle are always sent; each date only when non-empty; rooms never |
| SettingsActions.UpdateSettings | src/app/actions/settings.ts:17-39 | the new settings are that merge |
| SettingsActions.UpdatedSettings | src/app/actions/settings.ts:25-37 | after the update, site, title and subtitle are the form's; the dates change only when supplied; rooms are kept |
| SettingsActions.UpdateSettingsIdempotent | src/app/actions/settings.ts:17-39 | submitting the same form twice is submitting it once |
| SettingsActions.RoomsAfterAdd | src/app/actions/settings.ts:50-56 | the room is present afterwards and no other is added; the old list is a prefix, and it grows by one iff the room was new |
| SettingsActions.RoomsAfterDelete | src/app/actions/settings.ts:64-68 | the room is gone and every other room stays present or absent as before |
| SettingsActions.AddRoomIdempotent | src/app/actions/settings.ts:54 | adding a room twice is adding it once; adding a present room changes nothing |
| SettingsActions.AddNewRoomAppends | src/app/actions/settings.ts:55 | a new room goes at the end |
| SettingsActions.AddRoomKeepsDistinct | src/app/actions/settings.ts:54-55 | adding keeps a list free of repeats |
| SettingsActions.DeleteAbsentRoom | src/app/actions/settings.ts:68 | deleting an absent room changes nothing |
| SettingsActions.DeleteUndoesAdd | src/app/actions/settings.ts:50-68 | deleting a room just added restores the list |
| SettingsActions.DeleteKeepsOrder | src/app/actions/settings.ts:68 | deleting works piecewise on a concatenation, so the order of the others is kept |
| SettingsActions.AddRoom | src/app/actions/settings.ts:50-58 | only the rooms change, to the list after adding |
| SettingsActions.DeleteRoom | src/app/actions/settings.ts:64-70 | only the rooms change, to the list after deleting |
| OrganizerActions.NewOrganizer | src/app/actions/organizer.ts:18-38 | username, email and project come from the form; the role defaults to `ORGANIZER` when missing or empty |
| OrganizerActions.OrganizerEdit | src/app/actions/organizer.ts:50-58 | the edit carries only username and email |
| OrganizerActions.CreateOrganizer | src/app/actions/organizer.ts:16-41 | a username in the user table gives "Username already exists" and creates nothing; otherwise the organizer is appended with the next fresh id, which is then used up |
| OrganizerActions.UpdateOrganizer | src/app/actions/organizer.ts:48-64 | an unknown id gives "Failed to update organizer" and changes nothing; otherwise only username and email change, at that index |
| OrganizerActions.FixedUsernamesTaken | src/lib/mock-service.ts:124-128 | `admin`, `organizer` and `exhibitor` are taken |
| OrganizerActions.OtherUsernamesFree | src/app/actions/organizer.ts:24 | any other username is free, whatever the organizer list holds |
| OrganizerActions.EditKeepsRoleAndProject | src/app/actions/organizer.ts:55-58 | an edit keeps the role and the project |
| ConferenceActions.Capacity | src/app/actions/conference.ts:49 | no capacity iff the field is empty; otherwise its base-10 `parseInt` |
| ConferenceActions.IsOn | src/app/actions/conference.ts:37-39 | a checkbox is set iff its field is exactly `on` |
| ConferenceActions.NewConference | src/app/actions/conference.ts:26-56 | each flag is set iff its field is exactly `on`; capacity as above; the photo defaults to `''`; the room is the field |
| ConferenceActions.ConferenceEdit | src/app/actions/conference.ts:66-94 | the update never carries a project |
| ConferenceActions.EditIsCreateInPlace | src/app/actions/conference.ts:66-94 | an update writes what a create would, keeping the project |
| ConferenceActions.CapacityOfNumber | src/app/actions/conference.ts:49 | a decimal capacity parses to its number |
| ConferenceActions.MissingPhotoIsEmpty | src/app/actions/conference.ts:52 | a missing photo becomes `''` |
| ConferenceActions.CreateConference | src/app/actions/conference.ts:26-59 | appends the decoded conference and succeeds |
| ConferenceActions.UpdateConference | src/app/actions/conference.ts:66-100 | an unknown id gives "Failed to update conference" and no change; otherwise the decoded fields at that index |
| ConferenceActions.ImportedFields | src/app/actions/conference.ts:119-133 | the row is stored with its photo defaulting to `''` |
| ConferenceActions.ImportedConferences | src/app/actions/conference.ts:118-134 | one conference per row, in order, with consecutive fresh ids |
| ConferenceActions.ImportConferences | src/app/actions/conference.ts:115-137 | the count is the number of rows, and those conferences are appended |
| ConferenceExcel.FlagCell | src/components/conference-excel.tsx:66-68 | a flag is exported as `Yes` iff it is set, and as `No` otherwise |
| ConferenceExcel.CapacityCell | src/components/conference-excel.tsx:63 | a numeric capacity is written as its number; a missing or NaN capacity gives an empty (falsy) cell |
| ConferenceExcel.ExportRow | src/components/conference-excel.tsx:57-69 | the row carries the topic, date, times, room, details, speaker and the three flags; the capacity cell is empty iff the capacity is missing or NaN, and otherwise holds the number |
| ConferenceExcel.Export | src/components/conference-excel.tsx:57-69 | one row per conference, in order |
| ConferenceExcel.ImportRow | src/components/conference-excel.tsx:96-109 | missing cells default to `Untitled`, today, `09:00`, `10:00` and empty room, detail and speaker; capacity is `parseInt` of the cell or `0`; a flag is set iff its cell is `Yes` |
| ConferenceExcel.FlagOf | src/components/conference-excel.tsx:106-108 | an imported flag is set iff its cell is exactly `Yes` |
| ConferenceExcel.ReimportedCapacity | src/components/conference-excel.tsx:63-103 | the capacity after export and import: the number, or 0 when missing or NaN |
| ConferenceExcel.Import | src/components/conference-excel.tsx:96-97 | one payload per sheet row, in order, each with the current project |
| ConferenceExcel.FlagRoundTrip | src/components/conference-excel.tsx:66-68 | exporting then importing a flag gives it back |
| ConferenceExcel.OnlyYesIsSet | src/components/conference-excel.tsx:106-108 | any cell other than `Yes` gives an unset flag |
| ConferenceExcel.CapacityRoundTrip | src/components/conference-excel.tsx:63-103 | an exported numeric capacity parses back to itself; a missing or NaN one comes back as 0, the import's default for a falsy cell |
| ConferenceExcel.ExportImportRoundTrip | src/components/conference-excel.tsx:57-109 | export then import keeps a conference's project, topic, times, room and flags; the date comes back only as the model's `yyyy-MM-dd` key, since the source writes `toLocaleDateString()` and reads that text back; a numeric capacity is kept, and a missing or NaN one becomes 0 |
| ConferenceExcel.EmptyRowDefaults | src/components/conference-excel.tsx:98-108 | an empty row gives the defaults, capacity 0 and no flags |
| ConferenceList.FilterConferences | src/components/conference-list.tsx:38-48 | a conference is kept iff it matches the search and falls in the range; the result is a subsequence of the list |
| ConferenceList.MatchesSearch | src/components/conference-list.tsx:39-42 | the search matches the topic, room or detail, ignoring case |
| ConferenceList.InRange | src/components/conference-list.tsx:44-46 | the day is on or after a given start and on or before a given end |
| ConferenceList.NoFiltersKeepAll | src/components/conference-list.tsx:38-48 | no search and no dates keep every conference |
| ConferenceList.BoundsInclusive | src/components/conference-list.tsx:45-46 | a conference on a bound's day passes that bound |
| ConferenceList.EmptyRange | src/components/conference-list.tsx:45-46 | a start after the end keeps nothing |
| ConferenceList.DatesAndGroups | src/components/conference-list.tsx:52-59 | a day is a key iff some conference is on it, and its group holds exactly the conferences of that day |
| ConferenceList.OfDateIsFilter | src/components/conference-list.tsx:52-59 | a day's group is the list filtered to that day |
| ConferenceList.GroupStep | src/components/conference-list.tsx:53-57 | one step of the `reduce` groups one more conference |
| ConferenceList.GroupByDate | src/components/conference-list.tsx:52-59 | the result is the grouping: a group per day, each holding that day's conferences in order, and each key listed once |
| ConferenceList.GroupsPartition | src/components/conference-list.tsx:52-59 | each conference is in its own day's group and in no other, and each group is an order-preserving subsequence |
| ConferenceList.ByKeyIsTotalPreorder | src/components/conference-list.tsx:62 | the key order is total and transitive |
| ConferenceList.SortedDates | src/components/conference-list.tsx:62 | the sorted keys are a permutation of the keys, in strictly ascending order |
| ConferenceList.DistinctPermutation | src/components/conference-list.tsx:62 | a permutation of keys without repeats has none |
| ConferenceList.ConferenceFilters.constructor | src/components/conference-list.tsx:32-34 | the filters start empty |
| ConferenceList.ConferenceFilters.SetSearchQuery | src/components/conference-list.tsx:32 | sets the search |
| ConferenceList.ConferenceFilters.SetStartDate | src/components/conference-list.tsx:33 | sets the start day |
| ConferenceList.ConferenceFilters.SetEndDate | src/components/conference-list.tsx:34 | sets the end day |
| ConferenceList.ConferenceFilters.ClearFilters | src/components/conference-list.tsx:66-70 | resets all three filters to empty |
| ConferenceList.ConferenceFilters.Filtered | src/components/conference-list.tsx:38-49 | the shown list is a subsequence of the conferences |
| ConferenceList.ClearShowsAll | src/components/conference-list.tsx:38-70 | after clearing, every conference is shown |
| ProjectsPage.FilterProjects | src/app/admin/projects/page.tsx:55-58 | a project is kept iff the query occurs, ignoring case, in its name or description; the result is a subsequence |
| ProjectsPage.EmptySearchKeepsAll | src/app/admin/projects/page.tsx:55-58 | an empty search lists every project |
| ProjectsPage.StatsOf | src/app/admin/projects/page.tsx:114-136 | the total is the count; active is 1 iff there is a project; upcoming is n − 1 for n > 1, else 0 |
| ProjectsPage.StatsAddUp | src/app/admin/projects/page.tsx:114-136 | active and upcoming add up to the total, and active is at most 1 |
| ProjectsPage.PrependKeepsOrder | src/app/admin/projects/page.tsx:45 | a created project comes first, and the others follow in their order |
| ProjectsPage.ProjectsPageState.constructor | src/app/admin/projects/page.tsx:24-27 | the page starts empty and loading |
| ProjectsPage.ProjectsPageState.OnFetched | src/app/admin/projects/page.tsx:29-36 | the list is replaced only on success; loading ends either way |
| ProjectsPage.ProjectsPageState.OnCreated | src/app/admin/projects/page.tsx:40-47 | a created project is prepended and closes the dialog; a failure changes nothing |
| ProjectsPage.ProjectsPageState.SetSearchQuery | src/app/admin/projects/page.tsx:27 | sets the search |
| ProjectsPage.ProjectsPageState.Filtered | src/app/admin/projects/page.tsx:55-58 | the shown list is a subsequence of the projects |
| ProjectsPage.ProjectsPageState.Counters | src/app/admin/projects/page.tsx:114-136 | the counters split the project count |
| CountrySelector.OrderIsTotalPreorder | src/components/CountrySelector.tsx:42-52 | the comparator is total and transitive |
| CountrySelector.ComesBefore | src/components/CountrySelector.tsx:42-52 | Vietnam may come before anything, then Thailand before the rest, then the shown property in code-point order |
| CountrySelector.SortedCountries | src/components/CountrySelector.tsx:41-53 | the sorted copy is a permutation of the dataset in comparator order, and the dataset is a value that stays as it was |
| CountrySelector.VietnamFirst | src/components/CountrySelector.tsx:44-45 | only a Vietnam entry comes before a Vietnam entry |
| CountrySelector.VietnamHeadsList | src/components/CountrySelector.tsx:44-45 | when the dataset has Vietnam, it comes first |
| CountrySelector.ThailandSecond | src/components/CountrySelector.tsx:46-47 | only Vietnam or Thailand entries come before a Thailand entry |
| CountrySelector.OthersByProperty | src/components/CountrySelector.tsx:49-51 | other countries follow the order of the shown property |
| CountrySelector.SelectedCountry | src/components/CountrySelector.tsx:55 | the first entry with that code, or none iff no code matches |
| Middleware.Decide | src/middleware.ts:4-27 | a redirect to `/login` iff the path starts with `/exhibitor` and there is no token; to `/exhibitor` iff the path is `/login` and there is a token; otherwise pass |
| Middleware.IsProtected | src/middleware.ts:9 | a path is protected iff it starts with `/exhibitor` |
| Middleware.HasToken | src/middleware.ts:13-16 | there is a token iff the cookie is present and non-empty, as `!token` reads it |
| Middleware.LoginIsPublic | src/middleware.ts:9-10 | `/login` is not protected, so the redirects never compete |
| Middleware.PrefixIsProtected | src/middleware.ts:9 | every path beginning with `/exhibitor`, `/exhibitor-2` included, needs a token |
| Middleware.EmptyTokenIsNone | src/middleware.ts:13-16 | an empty token acts like none |
| Middleware.TokenPassesElsewhere | src/middleware.ts:16-26 | with a token, every page except `/login` passes |
| AuthHelpers.IsTokenExpired | src/lib/auth-helpers.ts:3-15 | no response gives false; 401 gives true; 400 gives true iff the message is `key incorrect`; any other status gives false |
| AuthHelpers.OtherStatusesAreNotExpiry | src/lib/auth-helpers.ts:14 | statuses other than 400 and 401 never count as expiry |
| AuthStore.AuthState.constructor | src/store/useAuthStore.ts:21-23 | no user, not authenticated, not hydrated: the snapshot `INITIAL` |
| AuthStore.AuthState.Login | src/store/useAuthStore.ts:25 | sets the user and authenticates; hydration is untouched; the invariant holds |
| AuthStore.AuthState.Logout | src/store/useAuthStore.ts:26 | clears the user and authentication; hydration is untouched |
| AuthStore.AuthState.SetHydrated | src/store/useAuthStore.ts:27 | sets only the hydration flag |
| AuthStore.Step | src/store/useAuthStore.ts:25-27 | each action changes a snapshot as its method changes the store: `Login`, `Logout` and `SetHydrated` each ensure that the store afterwards is `Step` of the store before |
| AuthStore.Run | src/store/useAuthStore.ts:21-27 | the snapshot after a sequence of actions, applied in order by `Step` |
| AuthStore.RunKeepsSession | src/store/useAuthStore.ts:21-27 | every run of actions keeps "authenticated iff a user is held", and hydration is never undone |

## Left out

- Rendering, dialogs, toasts, loaders and styling are left out. They hold no state beyond the flags modelled.
- Network and cookie plumbing is left out. This covers the Axios calls, the `api.ts` interceptors and `next/headers`. Remote results are parameters (`Option` answers or a `succeeded` flag).
- `revalidatePath` and `console` output are left out. They are side effects with no model state.
- The getters that only return a list are left out, because they have no logic. These are `getProjects`, `getOrganizers`, `getRecentImports`, `getSettings` and `getInvitationCodes`.
- Some thin wrappers are left out, because they add nothing but a `{ success }` envelope around one store call:
  - in `src/app/actions/participant.ts`: `getParticipants`, `createParticipant`, `updateParticipant`, `deleteParticipant`, `searchParticipantByCode` and `getRecentScannerImports`;
  - in `src/app/actions/settings.ts`: the invitation code and project actions;
  - the get and delete actions in `src/app/actions/organizer.ts` and `src/app/actions/conference.ts`.
- `src/app/actions/staff.ts` and `src/app/actions/project.ts` are not part of this model.
- Dates are their `yyyy-MM-dd` key strings. This leaves out several things:
  - `new Date(...)` and date-fns `format`;
  - `toLocaleDateString` in the Excel export, where the model writes the key;
  - time zones.
- `uuidv4` is a counter (`FreshId`), so the model assumes distinct draws.
- The clock is one `now` value per operation.
- Text handling is simplified in three ways:
  - `toLowerCase` is ASCII lower-casing;
  - `localeCompare` is lexicographic code-point order;
  - `trim` drops the ASCII white space, U+00A0 and U+FEFF only. The rest of JavaScript's white space (U+1680, U+2000 to U+200A, U+2028, U+2029, U+202F, U+205F and U+3000) is kept.
- Numbers are unbounded integers, not JavaScript doubles. Integers above 2^53 lose precision in the source, and a number of 10^21 or more prints in exponent form (`1e+21`); neither is modelled.
- ConferenceExcel.CapacityRoundTrip: the number comes back unchanged for every integer. In the source this holds only below 10^21, since `1e+21` reimports as 1.
- ConferenceExcel.ExportImportRoundTrip: the capacity part has the same 10^21 bound in the source, and the date part holds only for the `yyyy-MM-dd` key that stands for the date.
- ConferenceActions.Capacity: every digit is kept, where `Number.parseInt` keeps integers exact only up to 2^53.
- The Zod email check is the parameter `isEmail`. `z.coerce.number` is modelled as the coerced integer, so fractional and NaN quotas are not modelled.
- ExhibitorForm.Payload: the extra spread keys (`boothNo`, `contactPerson`) that the payload also carries are not modelled.
- FormData.Text: an absent text field reads as `''`, where the source would pass `null` on. Optional record fields use `FormData.Get`, where `null` is `None`.
- Sorting.Sort: the comparator is modelled as "may come before". The model proves the order and the permutation, but not the relative order of ties.
- The XLSX reading and writing and the `FileReader` are left out. Only the row transforms are modelled.
- Zustand `persist` and local storage are left out. Hydration is the `SetHydrated` call itself.
- The JSX rendering of the countries dataset is left out. The dataset itself is a parameter.
- Concurrency is left out. Every server action runs to completion alone, and the `await`s inside it do not interleave with other actions.
- MockStore.CreateStaff: there is no uniqueness guarantee for staff ids. As written, the id is built from the current count, so `CollisionAfterDelete` exhibits a repeated id rather than a unique one.
- StaffPortal: the remaining slots are `totalQuota - staffCount` as written, and can be negative. The edit window is open when no cutoff status is given, and the cutoff date itself is never compared with the clock.
