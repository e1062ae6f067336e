/** The organizer's exhibitor form: the schema the values must satisfy, the
    values the form starts from (a blank form, or the exhibitor being
    edited), and the payload it submits to create or update. */
module ExhibitorForm {
  import opened Wrappers
  import opened MockStore

  /** The form values after the schema's parsing; `quota` and `overQuota`
      are the numbers the inputs were coerced to. */
  datatype FormValues = FormValues(
    companyName: string, registrationId: Option<string>, password: Option<string>,
    boothNo: Option<string>, contactPerson: Option<string>, email: Option<string>,
    phone: Option<string>, fax: Option<string>, website: Option<string>,
    address: Option<string>, city: Option<string>, province: Option<string>,
    country: Option<string>, postalCode: Option<string>, quota: int, overQuota: int)

  datatype SubmitRequest =
    | CreateExhibitor(payload: ExhibitorFields)
    | UpdateExhibitor(id: string, payload: ExhibitorFields)

  const COMPANY_NAME_REQUIRED: string := "Company name is required"
  const INVALID_EMAIL: string := "Invalid email address"
  const QUOTA_NEGATIVE: string := "Quota must be 0 or greater"
  const OVER_QUOTA_NEGATIVE: string := "Over quota must be 0 or greater"

  /** The schema's messages for `v`, in field order; `isEmail` is the email
      syntax check, which an empty email skips. */
  function Issues(v: FormValues, isEmail: string -> bool): (r: seq<string>)
    ensures COMPANY_NAME_REQUIRED in r <==> |v.companyName| < 2
    ensures QUOTA_NEGATIVE in r <==> v.quota < 0
    ensures OVER_QUOTA_NEGATIVE in r <==> v.overQuota < 0
    ensures INVALID_EMAIL in r <==> v.email.Some? && v.email.value != "" && !isEmail(v.email.value)
  {
    (if |v.companyName| < 2 then [COMPANY_NAME_REQUIRED] else [])
    + (if v.email.Some? && v.email.value != "" && !isEmail(v.email.value) then [INVALID_EMAIL] else [])
    + (if v.quota < 0 then [QUOTA_NEGATIVE] else [])
    + (if v.overQuota < 0 then [OVER_QUOTA_NEGATIVE] else [])
  }

  predicate Valid(v: FormValues, isEmail: string -> bool) {
    Issues(v, isEmail) == []
  }

  /** The schema's bounds, both ways. */
  lemma ValidBounds(v: FormValues, isEmail: string -> bool)
    ensures Valid(v, isEmail) <==>
      |v.companyName| >= 2 && v.quota >= 0 && v.overQuota >= 0
      && (v.email.None? || v.email.value == "" || isEmail(v.email.value))
  {
    var r := Issues(v, isEmail);
    if r != [] {
      assert r[0] in r;
    }
  }

  /** `defaultValues`: the edited exhibitor's values, missing strings
      becoming `''`, or a blank form with zero quotas. */
  function DefaultValues(initial: Option<Exhibitor>): FormValues {
    if initial.Some? then
      var e := initial.value.fields;
      FormValues(e.companyName, Some(OrDefault(e.registrationId, "")), Some(OrDefault(e.password, "")),
        Some(e.boothNumber), Some(e.contactName), Some(e.email), Some(e.phone),
        Some(OrDefault(e.fax, "")), Some(OrDefault(e.website, "")), Some(OrDefault(e.address, "")),
        Some(OrDefault(e.city, "")), Some(OrDefault(e.province, "")), Some(OrDefault(e.country, "")),
        Some(OrDefault(e.postalCode, "")), e.quota, e.overQuota)
    else
      FormValues("", Some(""), Some(""), Some(""), Some(""), Some(""), Some(""), Some(""), Some(""),
        Some(""), Some(""), Some(""), Some(""), Some(""), 0, 0)
  }

  /** `onSubmit`'s payload: the values, with the exhibitor's name set to the
      company name and the project, booth, contact, email and phone filled
      in (missing ones as `''`). */
  function Payload(v: FormValues, projectId: string): (p: ExhibitorFields)
    ensures p.name == v.companyName && p.companyName == v.companyName && p.projectId == projectId
    ensures p.boothNumber == OrDefault(v.boothNo, "") && p.contactName == OrDefault(v.contactPerson, "")
    ensures p.email == OrDefault(v.email, "") && p.phone == OrDefault(v.phone, "")
    ensures p.quota == v.quota && p.overQuota == v.overQuota
  {
    ExhibitorFields(projectId, v.companyName, v.companyName, v.registrationId, v.password,
      v.address, v.city, v.province, v.country, v.postalCode,
      OrDefault(v.boothNo, ""), OrDefault(v.contactPerson, ""), OrDefault(v.email, ""),
      OrDefault(v.phone, ""), v.fax, v.website, v.quota, v.overQuota, None)
  }

  /** The form updates the exhibitor it was opened with, and creates one
      otherwise. */
  function Submit(initial: Option<Exhibitor>, v: FormValues, projectId: string): (r: SubmitRequest)
    ensures r.UpdateExhibitor? <==> initial.Some?
    ensures r.UpdateExhibitor? ==> r.id == initial.value.id
    ensures r.payload == Payload(v, projectId)
  {
    if initial.Some? then UpdateExhibitor(initial.value.id, Payload(v, projectId))
    else CreateExhibitor(Payload(v, projectId))
  }

  // ---------------------------------------------------------------------
  // Properties

  /** A new form starts blank, with zero quotas, and cannot be submitted as
      it is. */
  lemma NewFormDefaults(isEmail: string -> bool)
    ensures var v := DefaultValues(None);
      v.companyName == "" && v.quota == 0 && v.overQuota == 0
      && v.boothNo == Some("") && v.email == Some("") && v.website == Some("")
    ensures !Valid(DefaultValues(None), isEmail)
  {
    assert COMPANY_NAME_REQUIRED in Issues(DefaultValues(None), isEmail);
  }

  /** An edit form copies the quotas and turns missing strings into `''`. */
  lemma EditFormCopies(e: Exhibitor)
    ensures var v := DefaultValues(Some(e));
      v.companyName == e.fields.companyName && v.quota == e.fields.quota
      && v.overQuota == e.fields.overQuota
      && (e.fields.fax.None? ==> v.fax == Some(""))
      && (e.fields.fax.Some? ==> v.fax == e.fields.fax)
  {
  }

  /** Opening an exhibitor and saving it unchanged writes back its company,
      booth, contact, email, phone, quotas and project. */
  lemma EditUnchangedKeeps(e: Exhibitor)
    ensures var p := Submit(Some(e), DefaultValues(Some(e)), e.fields.projectId).payload;
      p.companyName == e.fields.companyName && p.boothNumber == e.fields.boothNumber
      && p.contactName == e.fields.contactName && p.email == e.fields.email
      && p.phone == e.fields.phone && p.quota == e.fields.quota
      && p.overQuota == e.fields.overQuota && p.projectId == e.fields.projectId
  {
  }
}
