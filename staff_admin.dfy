/** The organizer's staff list for one exhibitor: loading the list, the
    add/edit dialog with the title picker, and removal after a successful
    delete. The server actions (`getStaffByExhibitorId`, `createStaff`,
    `updateStaff`, `deleteStaff`) are the requests the handlers return, and
    their outcomes are parameters. */
module StaffAdmin {
  import opened Wrappers
  import opened Lists
  import opened Titles
  import opened MockStore

  /** The dialog's form, apart from the title picker. */
  datatype StaffForm = StaffForm(firstName: string, lastName: string, position: string, email: string, mobile: string)

  const EMPTY_FORM: StaffForm := StaffForm("", "", "", "", "")

  datatype StaffRequest =
    | CreateStaffRequest(data: StaffFields)
    | UpdateStaffRequest(id: string, patch: StaffPatch)

  function FormOf(s: Staff): StaffForm {
    StaffForm(s.fields.firstName, s.fields.lastName, s.fields.position, s.fields.email, s.fields.mobile)
  }

  /** `handleSubmit`'s request: the payload with the final title, plus the
      exhibitor id when creating, or keyed by the staff id when editing. */
  function SubmitRequest(exhibitorId: string, editing: Option<Staff>, form: StaffForm, title: TitleState): (r: StaffRequest)
    ensures r.CreateStaffRequest? <==> editing.None?
    ensures r.CreateStaffRequest? ==> r.data == StaffFields(exhibitorId, FinalTitle(title),
      form.firstName, form.lastName, form.email, form.mobile, form.position)
    ensures r.UpdateStaffRequest? ==> r.id == editing.value.id && r.patch.exhibitorId.None?
  {
    var title := FinalTitle(title);
    if editing.Some? then
      UpdateStaffRequest(editing.value.id, StaffPatch(None, Some(title), Some(form.firstName),
        Some(form.lastName), Some(form.email), Some(form.mobile), Some(form.position)))
    else
      CreateStaffRequest(StaffFields(exhibitorId, title, form.firstName, form.lastName,
        form.email, form.mobile, form.position))
  }

  /** The edit request carries the very payload the create request would,
      without the exhibitor id: applied to any record it writes the same
      fields. */
  lemma CreateAndUpdateSendSamePayload(exhibitorId: string, s: Staff, form: StaffForm, title: TitleState, f: StaffFields)
    ensures var c := SubmitRequest(exhibitorId, None, form, title).data;
      var u := SubmitRequest(exhibitorId, Some(s), form, title).patch;
      u.ApplyTo(f) == c.(exhibitorId := f.exhibitorId)
  {
  }

  /** Editing a member and submitting without changes writes the member's
      own fields back: the update leaves the record as it was. */
  lemma EditUnchangedIsIdentity(exhibitorId: string, s: Staff)
    ensures var r := SubmitRequest(exhibitorId, Some(s), FormOf(s), TitleStateFor(s.fields.title));
      r.UpdateStaffRequest? && r.id == s.id && r.patch.ApplyTo(s.fields) == s.fields
  {
    TitleRoundTrip(s.fields.title);
  }

  class StaffManagement {
    const exhibitorId: string
    var staffList: seq<Staff>
    var loading: bool
    var isDialogOpen: bool
    var editingStaff: Option<Staff>
    var form: StaffForm
    var title: TitleState

    constructor (exhibitorId: string)
      ensures this.exhibitorId == exhibitorId && staffList == [] && loading
      ensures !isDialogOpen && editingStaff.None? && form == EMPTY_FORM && title == EMPTY_TITLE
    {
      this.exhibitorId := exhibitorId;
      staffList := [];
      loading := true;
      isDialogOpen := false;
      editingStaff := None;
      form := EMPTY_FORM;
      title := EMPTY_TITLE;
    }

    /** `fetchStaff` once the server answered: the list is replaced only
        on success, and loading ends either way. */
    method FetchStaff(result: Option<seq<Staff>>)
      modifies this`staffList, this`loading
      ensures staffList == if result.Some? then result.value else old(staffList)
      ensures !loading
    {
      loading := true;
      if result.Some? {
        staffList := result.value;
      }
      loading := false;
    }

    /** `handleOpenDialog(staff?)`. */
    method HandleOpenDialog(staff: Option<Staff>)
      modifies this`isDialogOpen, this`editingStaff, this`form, this`title
      ensures isDialogOpen && editingStaff == staff
      ensures staff.Some? ==> form == FormOf(staff.value) && title == TitleStateFor(staff.value.fields.title)
      ensures staff.None? ==> form == EMPTY_FORM && title == EMPTY_TITLE
    {
      if staff.Some? {
        var s := staff.value;
        editingStaff := staff;
        var isStandard := IsStandard(s.fields.title);
        var displayTitle := "";
        if isStandard {
          displayTitle := s.fields.title;
        } else if s.fields.title != "" {
          displayTitle := OTHER;
        }
        form := FormOf(s);
        if !isStandard && s.fields.title != "" {
          title := TitleState(displayTitle, true, s.fields.title);
        } else {
          title := TitleState(displayTitle, false, "");
        }
      } else {
        editingStaff := None;
        form := EMPTY_FORM;
        title := EMPTY_TITLE;
      }
      isDialogOpen := true;
    }

    method HandleSelectTitle(value: string)
      modifies this`title
      ensures title == SelectTitle(old(title), value)
    {
      if value == OTHER {
        title := title.(displayTitle := OTHER, isOther := true);
      } else {
        title := TitleState(value, false, "");
      }
    }

    method HandleCustomTitle(text: string)
      modifies this`title
      ensures title == TypeCustomTitle(old(title), text)
    {
      title := title.(customTitle := text);
    }

    /** `handleSubmit`: the request to send; a successful one closes the
        dialog (the list is then fetched again). */
    method HandleSubmit(succeeded: bool) returns (request: StaffRequest)
      modifies this`isDialogOpen
      ensures request == SubmitRequest(exhibitorId, editingStaff, form, title)
      ensures isDialogOpen == (old(isDialogOpen) && !succeeded)
    {
      request := SubmitRequest(exhibitorId, editingStaff, form, title);
      if succeeded {
        isDialogOpen := false;
      }
    }

    /** `handleDelete(id)` once confirmed: a successful delete drops that
        entry from the local list. */
    method HandleDelete(id: string, succeeded: bool)
      modifies this`staffList
      ensures staffList == if succeeded then Filter(old(staffList), WithoutId(id)) else old(staffList)
    {
      if succeeded {
        staffList := Filter(staffList, WithoutId(id));
      }
    }
  }
}
