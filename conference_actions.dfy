/** The conference server actions: decoding the conference form into a new
    conference or an edit of one, and the bulk import of spreadsheet rows. */
module ConferenceActions {
  import opened Wrappers
  import opened Strings
  import opened Lists
  import opened FormData
  import opened MockStore

  const UPDATE_FAILED: string := "Failed to update conference"

  /** A checkbox is ticked iff the form sends exactly `on` for it. */
  predicate IsOn(form: Form, name: string) {
    Get(form, name) == Some("on")
  }

  /** The capacity field: absent when empty, its base-10 `parseInt`
      otherwise (`NaN` included). */
  function Capacity(form: Form): (c: Option<ParsedInt>)
    ensures c.None? <==> Text(form, "capacity") == ""
    ensures c.Some? ==> c.value == ParseInt(form["capacity"], 10)
  {
    var text := Text(form, "capacity");
    if text != "" then Some(ParseInt(text, 10)) else None
  }

  /** The conference `createConference(formData)` records; dates are kept
      as their text. */
  function NewConference(form: Form): (c: ConferenceFields)
    ensures c.projectId == Text(form, "projectId") && c.topic == Text(form, "topic")
    ensures c.isPublic <==> IsOn(form, "isPublic")
    ensures c.showOnReg <==> IsOn(form, "showOnReg")
    ensures c.allowPreReg <==> IsOn(form, "allowPreReg")
    ensures c.capacity == Capacity(form)
    ensures c.photoUrl == Some(Text(form, "photoUrl"))
    ensures c.room == Get(form, "room")
  {
    ConferenceFields(Text(form, "projectId"), Text(form, "topic"), Text(form, "date"),
      Text(form, "startTime"), Text(form, "endTime"), Get(form, "room"), Capacity(form),
      Get(form, "detail"), Get(form, "speakerInfo"), Some(OrDefault(Get(form, "photoUrl"), "")),
      IsOn(form, "isPublic"), IsOn(form, "showOnReg"), IsOn(form, "allowPreReg"))
  }

  /** `updateConference(id, formData)`'s patch: every field of the form,
      the project never. */
  function ConferenceEdit(form: Form): (p: ConferencePatch)
    ensures p.projectId.None?
  {
    ConferencePatch(None, Some(Text(form, "topic")), Some(Text(form, "date")),
      Some(Text(form, "startTime")), Some(Text(form, "endTime")), Some(Get(form, "room")),
      Some(Capacity(form)), Some(Get(form, "detail")), Some(Get(form, "speakerInfo")),
      Some(Some(OrDefault(Get(form, "photoUrl"), ""))),
      Some(IsOn(form, "isPublic")), Some(IsOn(form, "showOnReg")), Some(IsOn(form, "allowPreReg")))
  }

  /** An edit writes what creating from the same form would, and keeps the
      conference in its project. */
  lemma EditIsCreateInPlace(form: Form, f: ConferenceFields)
    ensures ConferenceEdit(form).ApplyTo(f) == NewConference(form).(projectId := f.projectId)
  {
  }

  /** A capacity typed as a decimal number is that number. */
  lemma CapacityOfNumber(form: Form, n: nat)
    requires "capacity" in form && form["capacity"] == NatToString(n)
    ensures Capacity(form) == Some(Int(n))
  {
    ParseIntToString(n, 10);
  }

  /** No photo gives the empty photo URL. */
  lemma MissingPhotoIsEmpty(form: Form)
    requires "photoUrl" !in form
    ensures NewConference(form).photoUrl == Some("")
  {
  }

  /** `createConference(formData)`. */
  method CreateConference(store: MockService, form: Form, now: int) returns (r: Outcome)
    modifies store`conferences, store`issuedIds
    ensures r == Success
    ensures store.conferences == old(store.conferences) + [Stored(FreshId(old(store.issuedIds)), NewConference(form), now)]
  {
    var _ := store.CreateConference(NewConference(form), now);
    r := Success;
  }

  /** `updateConference(id, formData)`: an unknown id is a failure and
      changes nothing. */
  method UpdateConference(store: MockService, id: string, form: Form) returns (r: Outcome)
    modifies store`conferences
    ensures var i := FindIndex(old(store.conferences), WithId(id));
      if i < 0 then r == Failure(UPDATE_FAILED) && store.conferences == old(store.conferences)
      else (r == Success && store.conferences == old(store.conferences)[i := old(store.conferences)[i].(
        fields := NewConference(form).(projectId := old(store.conferences)[i].fields.projectId))])
  {
    var result := store.UpdateConference(id, ConferenceEdit(form));
    ghost var i := FindIndex(old(store.conferences), WithId(id));
    if i >= 0 {
      EditIsCreateInPlace(form, old(store.conferences)[i].fields);
    }
    if result.Err? {
      return Failure(UPDATE_FAILED);
    }
    r := Success;
  }

  // ---------------------------------------------------------------------
  // Bulk import

  /** An imported row as `importConferences` records it: a missing photo
      URL becomes `''`. */
  function ImportedFields(row: ConferenceFields): (c: ConferenceFields)
    ensures c.photoUrl.Some? && c == row.(photoUrl := c.photoUrl)
    ensures row.photoUrl.Some? && row.photoUrl.value != "" ==> c == row
  {
    row.(photoUrl := Some(OrDefault(row.photoUrl, "")))
  }

  /** The conferences `importConferences(rows)` appends, the `k`-th taking
      the `k`-th fresh id after `first`. */
  function ImportedConferences(rows: seq<ConferenceFields>, first: nat, now: int): (r: seq<Conference>)
    ensures |r| == |rows|
    ensures forall k :: 0 <= k < |r| ==> r[k] == Stored(FreshId(first + k), ImportedFields(rows[k]), now)
  {
    seq(|rows|, k requires 0 <= k < |rows| => Stored(FreshId(first + k), ImportedFields(rows[k]), now))
  }

  /** `importConferences(data)`: one conference per row, in order; the
      count is the number of rows. */
  method ImportConferences(store: MockService, rows: seq<ConferenceFields>, now: int) returns (count: nat)
    modifies store`conferences, store`issuedIds
    ensures count == |rows|
    ensures store.conferences == old(store.conferences) + ImportedConferences(rows, old(store.issuedIds), now)
    ensures store.issuedIds == old(store.issuedIds) + |rows|
  {
    var k := 0;
    while k < |rows|
      invariant k <= |rows|
      invariant store.issuedIds == old(store.issuedIds) + k
      invariant store.conferences == old(store.conferences) + ImportedConferences(rows[..k], old(store.issuedIds), now)
    {
      var c := store.CreateConference(ImportedFields(rows[k]), now);
      assert ImportedConferences(rows[..k + 1], old(store.issuedIds), now)
        == ImportedConferences(rows[..k], old(store.issuedIds), now) + [c];
      k := k + 1;
    }
    assert rows[..k] == rows;
    count := |rows|;
  }
}
