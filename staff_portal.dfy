/** The exhibitor portal's staff list: the quota and edit-window gate that
    decides whether a member may be added, edited or (de)activated, and the
    dialog that builds the add/update request. The remote calls
    (`addExhibitorMember`, `updateExhibitorMember`,
    `toggleExhibitorMemberStatus`) are the requests the handlers return;
    their outcome is a parameter. */
module StaffPortal {
  import opened Wrappers
  import opened Titles

  /** The exhibitor as the server describes it; a quota the server leaves
      out (or sends as `null` or NaN) is `None`. */
  datatype ExhibitorInfo = ExhibitorInfo(
    exhibitorUuid: string, projectUuid: string, companyName: string,
    country: Option<string>, tel: Option<string>, boothNo: string,
    quota: Option<int>, overQuota: Option<int>, isQuotaFull: Option<bool>)

  datatype ExhibitorMember = ExhibitorMember(
    memberUuid: string, registrationCode: string, title: string, titleOther: string,
    firstName: string, lastName: string, jobPosition: string,
    mobileCountryCode: string, mobileNumber: string, email: string, isActive: bool,
    companyName: string, companyCountry: string, companyTel: string)

  datatype CutoffStatus = CutoffStatus(isEditable: bool, cutoffDate: string)

  /** The dialog's form, apart from the title picker. */
  datatype MemberForm = MemberForm(
    firstName: string, lastName: string, titleOther: string, jobPosition: string,
    email: string, mobileCountryCode: string, mobileNumber: string,
    companyName: string, companyCountry: string, companyTel: string)

  /** What is sent for an add or an update. */
  datatype MemberPayload = MemberPayload(
    exhibitorUuid: string, title: string, titleOther: string,
    firstName: string, lastName: string, jobPosition: string, email: string,
    mobileCountryCode: string, mobileNumber: string,
    companyName: string, companyCountry: string, companyTel: string)

  datatype Request =
    | NoRequest
    | AddMember(payload: MemberPayload)
    | UpdateMember(payload: MemberPayload, memberUuid: string)

  datatype Action = Add | Edit | Toggle

  /** The gate's answer; `Allowed` lets the handler go on. */
  datatype Verdict = CutoffPassed | QuotaFull | Allowed

  const DEFAULT_COUNTRY_CODE: string := "66"

  // ---------------------------------------------------------------------
  // The gate

  /** `n || 0` on an optional number. */
  function OrZero(n: Option<int>): int {
    if n.Some? then n.value else 0
  }

  /** `(quota || 0) + (over_quota || 0)`. */
  function TotalQuota(info: Option<ExhibitorInfo>): int {
    if info.None? then 0 else OrZero(info.value.quota) + OrZero(info.value.overQuota)
  }

  /** `is_quota_full ?? (staffCount >= totalQuota)`. */
  predicate IsQuotaFull(info: Option<ExhibitorInfo>, staffCount: int) {
    if info.Some? && info.value.isQuotaFull.Some? then info.value.isQuotaFull.value
    else staffCount >= TotalQuota(info)
  }

  /** `cutoffStatus ? !cutoffStatus.is_editable : false`. */
  predicate IsPastCutoff(cutoff: Option<CutoffStatus>) {
    cutoff.Some? && !cutoff.value.isEditable
  }

  /** The gate: the edit window is checked first, and only adding looks at
      the quota. */
  function Decide(action: Action, pastCutoff: bool, quotaFull: bool): (v: Verdict)
    ensures v == CutoffPassed <==> pastCutoff
    ensures v == QuotaFull <==> !pastCutoff && action == Add && quotaFull
    ensures v == Allowed <==> !pastCutoff && !(action == Add && quotaFull)
  {
    if pastCutoff then CutoffPassed
    else if action == Add && quotaFull then QuotaFull
    else Allowed
  }

  /** `disabled={isPastCutoff || isQuotaFull}` on the Add button. */
  predicate AddDisabled(pastCutoff: bool, quotaFull: bool) {
    pastCutoff || quotaFull
  }

  /** `disabled={isPastCutoff}` on the Edit and on the toggle button. */
  predicate RowButtonDisabled(pastCutoff: bool) {
    pastCutoff
  }

  /** `totalQuota - staffCount` in the add dialog's text. */
  function SlotsRemaining(info: Option<ExhibitorInfo>, staffCount: int): int {
    TotalQuota(info) - staffCount
  }

  /** The buttons are disabled exactly when the handler they call would
      refuse. */
  lemma ButtonsAgreeWithGate(pastCutoff: bool, quotaFull: bool)
    ensures AddDisabled(pastCutoff, quotaFull) <==> Decide(Add, pastCutoff, quotaFull) != Allowed
    ensures RowButtonDisabled(pastCutoff) <==> Decide(Edit, pastCutoff, quotaFull) != Allowed
    ensures RowButtonDisabled(pastCutoff) <==> Decide(Toggle, pastCutoff, quotaFull) != Allowed
  {
  }

  /** Missing quotas count as 0. */
  lemma TotalQuotaOfMissing(info: Option<ExhibitorInfo>)
    ensures info.None? ==> TotalQuota(info) == 0
    ensures info.Some? && info.value.quota.None? && info.value.overQuota.None? ==> TotalQuota(info) == 0
    ensures info.Some? && info.value.quota.Some? && info.value.overQuota.None? ==>
      TotalQuota(info) == info.value.quota.value
  {
  }

  /** The server's flag wins over the count, in both directions. */
  lemma ServerFlagWins(info: ExhibitorInfo, staffCount: int)
    requires info.isQuotaFull.Some?
    ensures IsQuotaFull(Some(info), staffCount) == info.isQuotaFull.value
  {
  }

  /** With no server flag, a quota that is not full leaves at least one
      slot; a full one leaves none. */
  lemma SlotsWhenCounted(info: Option<ExhibitorInfo>, staffCount: int)
    requires info.None? || info.value.isQuotaFull.None?
    ensures !IsQuotaFull(info, staffCount) <==> SlotsRemaining(info, staffCount) >= 1
  {
  }

  /** The count includes inactive members: (de)activating one changes
      neither the count nor fullness. */
  lemma InactiveMembersCount(info: Option<ExhibitorInfo>, members: seq<ExhibitorMember>, i: int, active: bool)
    requires 0 <= i < |members|
    ensures |members[i := members[i].(isActive := active)]| == |members|
    ensures IsQuotaFull(info, |members[i := members[i].(isActive := active)]|) == IsQuotaFull(info, |members|)
  {
  }

  /** With no cutoff status the window is open. */
  lemma NoCutoffIsOpen()
    ensures !IsPastCutoff(None)
    ensures forall a: Action, full: bool :: a != Add ==> Decide(a, IsPastCutoff(None), full) == Allowed
  {
  }

  // ---------------------------------------------------------------------
  // The dialog

  /** The form `handleOpenDialog(member)` fills in; an empty country code
      becomes `66`. */
  function EditForm(m: ExhibitorMember): (f: MemberForm)
    ensures f.mobileCountryCode != ""
    ensures m.mobileCountryCode != "" ==> f.mobileCountryCode == m.mobileCountryCode
  {
    MemberForm(m.firstName, m.lastName, m.titleOther, m.jobPosition, m.email,
      if m.mobileCountryCode != "" then m.mobileCountryCode else DEFAULT_COUNTRY_CODE,
      m.mobileNumber, m.companyName, m.companyCountry, m.companyTel)
  }

  /** The form `handleOpenDialog()` fills in for a new member: the company
      details come from the exhibitor. */
  function AddForm(info: Option<ExhibitorInfo>): (f: MemberForm)
    ensures f.firstName == "" && f.lastName == "" && f.email == "" && f.mobileNumber == ""
    ensures f.mobileCountryCode == DEFAULT_COUNTRY_CODE
    ensures info.None? ==> f.companyName == "" && f.companyCountry == "" && f.companyTel == ""
  {
    MemberForm("", "", "", "", "", DEFAULT_COUNTRY_CODE, "",
      if info.Some? then info.value.companyName else "",
      if info.Some? then OrDefault(info.value.country, "") else "",
      if info.Some? then OrDefault(info.value.tel, "") else "")
  }

  /** `handleSubmit`: nothing is sent without an exhibitor uuid; otherwise
      the payload carries the final title and the form, keyed by the
      member's uuid when editing. */
  function SubmitRequest(info: Option<ExhibitorInfo>, editing: Option<ExhibitorMember>,
                         form: MemberForm, title: TitleState): (r: Request)
    ensures info.None? || info.value.exhibitorUuid == "" <==> r == NoRequest
    ensures r != NoRequest ==> (r.payload.exhibitorUuid == info.value.exhibitorUuid
      && r.payload.title == FinalTitle(title))
    ensures r.UpdateMember? <==> r != NoRequest && editing.Some?
    ensures r.UpdateMember? ==> r.memberUuid == editing.value.memberUuid
  {
    if info.None? || info.value.exhibitorUuid == "" then NoRequest
    else
      var payload := MemberPayload(info.value.exhibitorUuid, FinalTitle(title), form.titleOther,
        form.firstName, form.lastName, form.jobPosition, form.email,
        form.mobileCountryCode, form.mobileNumber,
        form.companyName, form.companyCountry, form.companyTel);
      if editing.Some? then UpdateMember(payload, editing.value.memberUuid) else AddMember(payload)
  }

  /** `handleToggleStatus(member)`: the member to toggle, or nothing when
      the window is closed or there is no exhibitor uuid. */
  function ToggleRequest(cutoff: Option<CutoffStatus>, info: Option<ExhibitorInfo>, m: ExhibitorMember): (r: Option<string>)
    ensures r.Some? <==> (Decide(Toggle, IsPastCutoff(cutoff), false) == Allowed
      && info.Some? && info.value.exhibitorUuid != "")
    ensures r.Some? ==> r.value == m.memberUuid
  {
    if IsPastCutoff(cutoff) then None
    else if info.None? || info.value.exhibitorUuid == "" then None
    else Some(m.memberUuid)
  }

  /** Toggling never looks at the quota. */
  lemma ToggleIgnoresQuota(cutoff: Option<CutoffStatus>, info: ExhibitorInfo, full: bool, m: ExhibitorMember)
    ensures ToggleRequest(cutoff, Some(info), m) == ToggleRequest(cutoff, Some(info.(isQuotaFull := Some(full))), m)
  {
  }

  /** Opening a member for editing and submitting without changes sends
      the member's own title and details back under its uuid. */
  lemma EditUnchangedSendsSameMember(info: ExhibitorInfo, m: ExhibitorMember)
    requires info.exhibitorUuid != ""
    requires m.mobileCountryCode != ""
    ensures var r := SubmitRequest(Some(info), Some(m), EditForm(m), TitleStateFor(m.title));
      r.UpdateMember? && r.memberUuid == m.memberUuid && r.payload.title == m.title
      && r.payload.firstName == m.firstName && r.payload.lastName == m.lastName
      && r.payload.email == m.email && r.payload.mobileCountryCode == m.mobileCountryCode
  {
    TitleRoundTrip(m.title);
  }

  /** The component's state. The props (`exhibitorInfo`, `cutoffStatus`)
      are constants; `formData.title`, `isOtherTitle` and `customTitle`
      together are the title picker. */
  class PortalStaffManagement {
    const exhibitorInfo: Option<ExhibitorInfo>
    const cutoffStatus: Option<CutoffStatus>
    var memberList: seq<ExhibitorMember>
    var isDialogOpen: bool
    var editingMember: Option<ExhibitorMember>
    var form: MemberForm
    var title: TitleState

    constructor (info: Option<ExhibitorInfo>, members: seq<ExhibitorMember>, cutoff: Option<CutoffStatus>)
      ensures exhibitorInfo == info && cutoffStatus == cutoff && memberList == members
      ensures !isDialogOpen && editingMember.None?
      ensures form == MemberForm("", "", "", "", "", DEFAULT_COUNTRY_CODE, "", "", "", "")
      ensures title == EMPTY_TITLE
    {
      exhibitorInfo := info;
      cutoffStatus := cutoff;
      memberList := members;
      isDialogOpen := false;
      editingMember := None;
      form := MemberForm("", "", "", "", "", DEFAULT_COUNTRY_CODE, "", "", "", "");
      title := EMPTY_TITLE;
    }

    /** The `members` prop changed. */
    method ReceiveMembers(members: seq<ExhibitorMember>)
      modifies this`memberList
      ensures memberList == members
    {
      memberList := members;
    }

    /** `handleOpenDialog(member?)`: refused while the window is closed, then
        (for a new member only) while the quota is full; otherwise the form
        is filled in and the dialog opens. */
    method HandleOpenDialog(member: Option<ExhibitorMember>) returns (verdict: Verdict)
      modifies this`isDialogOpen, this`editingMember, this`form, this`title
      ensures verdict == Decide(if member.Some? then Edit else Add, IsPastCutoff(cutoffStatus),
                                IsQuotaFull(exhibitorInfo, |memberList|))
      ensures verdict != Allowed ==> (isDialogOpen == old(isDialogOpen) && editingMember == old(editingMember)
        && form == old(form) && title == old(title))
      ensures verdict == Allowed ==> isDialogOpen && editingMember == member
      ensures verdict == Allowed && member.Some? ==> form == EditForm(member.value) && title == TitleStateFor(member.value.title)
      ensures verdict == Allowed && member.None? ==> form == AddForm(exhibitorInfo) && title == EMPTY_TITLE
    {
      if IsPastCutoff(cutoffStatus) {
        return CutoffPassed;
      }
      if member.Some? {
        var m := member.value;
        editingMember := member;
        var isStandard := IsStandard(m.title);
        var displayTitle := "";
        if isStandard {
          displayTitle := m.title;
        } else if m.title != "" {
          displayTitle := OTHER;
        }
        form := EditForm(m);
        if !isStandard && m.title != "" {
          title := TitleState(displayTitle, true, m.title);
        } else {
          title := TitleState(displayTitle, false, "");
        }
      } else {
        if IsQuotaFull(exhibitorInfo, |memberList|) {
          return QuotaFull;
        }
        editingMember := None;
        form := AddForm(exhibitorInfo);
        title := EMPTY_TITLE;
      }
      isDialogOpen := true;
      verdict := Allowed;
    }

    method HandleSelectTitle(value: string)
      modifies this`title
      ensures title == SelectTitle(old(title), value)
    {
      if value == OTHER {
        title := title.(displayTitle := OTHER, isOther := true);
      } else {
        title := TitleState(value, false, "");
      }
    }

    method HandleCustomTitle(text: string)
      modifies this`title
      ensures title == TypeCustomTitle(old(title), text)
    {
      title := title.(customTitle := text);
    }

    /** `handleSubmit`: builds the request; a successful request closes the
        dialog. */
    method HandleSubmit(succeeded: bool) returns (request: Request)
      modifies this`isDialogOpen
      ensures request == SubmitRequest(exhibitorInfo, editingMember, form, title)
      ensures isDialogOpen == (old(isDialogOpen) && !(request != NoRequest && succeeded))
    {
      request := SubmitRequest(exhibitorInfo, editingMember, form, title);
      if request != NoRequest && succeeded {
        isDialogOpen := false;
      }
    }
  }

  /** Opening a member and submitting at once, with the window open and an
      exhibitor uuid, updates that member with its own title. */
  method EditWithoutChanges(p: PortalStaffManagement, m: ExhibitorMember) returns (request: Request)
    requires !IsPastCutoff(p.cutoffStatus)
    requires p.exhibitorInfo.Some? && p.exhibitorInfo.value.exhibitorUuid != ""
    modifies p
    ensures request.UpdateMember? && request.memberUuid == m.memberUuid && request.payload.title == m.title
  {
    var verdict := p.HandleOpenDialog(Some(m));
    request := p.HandleSubmit(true);
    TitleRoundTrip(m.title);
  }
}
