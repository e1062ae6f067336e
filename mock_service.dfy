/** The in-memory entity store (`MockService`): mutable lists of projects,
    organizers, participants, conferences, exhibitors, staff and invitation
    codes, with create by push, update by merging a patch into the record at
    its index, and delete by filtering.

    Every stored record is a `Stored<F>`: the id and creation time the store
    assigns, and the fields `F` the caller supplies (TypeScript's
    `Omit<Entity, 'id' | 'createdAt'>`). A patch (`Partial<...>`) carries an
    `Option` per field, `Some` when the key is present; an optional field of
    the record becomes an `Option<Option<_>>` in its patch, because the key
    may be present with the value `undefined`. Dates are `yyyy-MM-dd`
    strings, the clock is the `now` parameter and `uuidv4` is the counter of
    issued ids fed to `FreshId`. */
module MockStore {
  import opened Wrappers
  import opened Strings
  import opened Lists
  import opened Sorting

  // ---------------------------------------------------------------------
  // Records

  datatype Stored<T> = Stored(id: string, fields: T, createdAt: int)

  predicate HasId<T>(r: Stored<T>, id: string) { r.id == id }

  /** `r => r.id === id`, the test `find`, `findIndex` and `filter` use. */
  function WithId<T>(id: string): Stored<T> -> bool {
    (r: Stored<T>) => r.id == id
  }

  /** `r => r.id !== id`, the test every delete filters by. */
  function WithoutId<T>(id: string): Stored<T> -> bool {
    (r: Stored<T>) => r.id != id
  }

  /** The id `uuidv4` gives as the `n`-th fresh id. */
  function FreshId(n: nat): (id: string)
    ensures |id| > 5 && id[..5] == "uuid-"
  {
    "uuid-" + NatToString(n)
  }

  /** Distinct draws of the oracle give distinct ids. */
  lemma FreshIdInjective(n: nat, m: nat)
    requires n != m
    ensures FreshId(n) != FreshId(m)
  {
    if FreshId(n) == FreshId(m) {
      assert NatToString(n) == FreshId(n)[5..];
      assert NatToString(m) == FreshId(m)[5..];
      NatToStringValue(n);
      NatToStringValue(m);
    }
  }

  datatype Role = ADMIN | ORGANIZER | EXHIBITOR

  datatype User = User(id: string, username: string, password: string, role: Role)

  /** The fixed login table every store starts with. */
  const USERS: seq<User> := [User("1", "admin", "123", ADMIN), User("2", "organizer", "123", ORGANIZER),
                             User("3", "exhibitor", "123", EXHIBITOR)]

  datatype ProjectFields = ProjectFields(name: string, description: Option<string>)

  type Project = Stored<ProjectFields>

  datatype ProjectPatch = ProjectPatch(name: Option<string>, description: Option<Option<string>>) {
    /** `{ ...record, ...patch }` on the fields. */
    function ApplyTo(f: ProjectFields): ProjectFields {
      ProjectFields(Pick(name, f.name), Pick(description, f.description))
    }
  }

  datatype OrganizerFields = OrganizerFields(username: string, email: string, role: string, projectId: string)

  type Organizer = Stored<OrganizerFields>

  datatype OrganizerPatch = OrganizerPatch(
    username: Option<string>, email: Option<string>, role: Option<string>, projectId: Option<string>)
  {
    function ApplyTo(f: OrganizerFields): OrganizerFields {
      OrganizerFields(Pick(username, f.username), Pick(email, f.email), Pick(role, f.role),
        Pick(projectId, f.projectId))
    }
  }

  /** A participant; `kind` is the source's `type` field (a reserved word
      here). */
  datatype ParticipantFields = ParticipantFields(
    projectId: string, kind: string, code: Option<string>,
    firstName: Option<string>, lastName: Option<string>, email: Option<string>,
    mobile: Option<string>, company: Option<string>, position: Option<string>,
    room: Option<string>, attended: Option<bool>)

  type Participant = Stored<ParticipantFields>

  datatype ParticipantPatch = ParticipantPatch(
    projectId: Option<string>, kind: Option<string>, code: Option<Option<string>>,
    firstName: Option<Option<string>>, lastName: Option<Option<string>>,
    email: Option<Option<string>>, mobile: Option<Option<string>>,
    company: Option<Option<string>>, position: Option<Option<string>>,
    room: Option<Option<string>>, attended: Option<Option<bool>>)
  {
    function ApplyTo(f: ParticipantFields): ParticipantFields {
      ParticipantFields(Pick(projectId, f.projectId), Pick(kind, f.kind), Pick(code, f.code),
        Pick(firstName, f.firstName), Pick(lastName, f.lastName), Pick(email, f.email),
        Pick(mobile, f.mobile), Pick(company, f.company), Pick(position, f.position),
        Pick(room, f.room), Pick(attended, f.attended))
    }
  }

  /** A conference session; `capacity` is whatever `parseInt` produced,
      NaN included. */
  datatype ConferenceFields = ConferenceFields(
    projectId: string, topic: string, date: string, startTime: string, endTime: string,
    room: Option<string>, capacity: Option<ParsedInt>, detail: Option<string>,
    speakerInfo: Option<string>, photoUrl: Option<string>,
    isPublic: bool, showOnReg: bool, allowPreReg: bool)

  type Conference = Stored<ConferenceFields>

  datatype ConferencePatch = ConferencePatch(
    projectId: Option<string>, topic: Option<string>, date: Option<string>,
    startTime: Option<string>, endTime: Option<string>, room: Option<Option<string>>,
    capacity: Option<Option<ParsedInt>>, detail: Option<Option<string>>,
    speakerInfo: Option<Option<string>>, photoUrl: Option<Option<string>>,
    isPublic: Option<bool>, showOnReg: Option<bool>, allowPreReg: Option<bool>)
  {
    function ApplyTo(f: ConferenceFields): ConferenceFields {
      ConferenceFields(Pick(projectId, f.projectId), Pick(topic, f.topic), Pick(date, f.date),
        Pick(startTime, f.startTime), Pick(endTime, f.endTime), Pick(room, f.room),
        Pick(capacity, f.capacity), Pick(detail, f.detail), Pick(speakerInfo, f.speakerInfo),
        Pick(photoUrl, f.photoUrl), Pick(isPublic, f.isPublic), Pick(showOnReg, f.showOnReg),
        Pick(allowPreReg, f.allowPreReg))
    }
  }

  datatype ExhibitorFields = ExhibitorFields(
    projectId: string, name: string, companyName: string,
    registrationId: Option<string>, password: Option<string>, address: Option<string>,
    city: Option<string>, province: Option<string>, country: Option<string>,
    postalCode: Option<string>, boothNumber: string, contactName: string,
    email: string, phone: string, fax: Option<string>, website: Option<string>,
    quota: int, overQuota: int, inviteCode: Option<string>)

  type Exhibitor = Stored<ExhibitorFields>

  datatype ExhibitorPatch = ExhibitorPatch(
    projectId: Option<string>, name: Option<string>, companyName: Option<string>,
    registrationId: Option<Option<string>>, password: Option<Option<string>>,
    address: Option<Option<string>>, city: Option<Option<string>>,
    province: Option<Option<string>>, country: Option<Option<string>>,
    postalCode: Option<Option<string>>, boothNumber: Option<string>,
    contactName: Option<string>, email: Option<string>, phone: Option<string>,
    fax: Option<Option<string>>, website: Option<Option<string>>,
    quota: Option<int>, overQuota: Option<int>, inviteCode: Option<Option<string>>)
  {
    function ApplyTo(f: ExhibitorFields): ExhibitorFields {
      ExhibitorFields(Pick(projectId, f.projectId), Pick(name, f.name),
        Pick(companyName, f.companyName), Pick(registrationId, f.registrationId),
        Pick(password, f.password), Pick(address, f.address), Pick(city, f.city),
        Pick(province, f.province), Pick(country, f.country), Pick(postalCode, f.postalCode),
        Pick(boothNumber, f.boothNumber), Pick(contactName, f.contactName),
        Pick(email, f.email), Pick(phone, f.phone), Pick(fax, f.fax),
        Pick(website, f.website), Pick(quota, f.quota), Pick(overQuota, f.overQuota),
        Pick(inviteCode, f.inviteCode))
    }
  }

  datatype StaffFields = StaffFields(
    exhibitorId: string, title: string, firstName: string, lastName: string,
    email: string, mobile: string, position: string)

  type Staff = Stored<StaffFields>

  datatype StaffPatch = StaffPatch(
    exhibitorId: Option<string>, title: Option<string>, firstName: Option<string>,
    lastName: Option<string>, email: Option<string>, mobile: Option<string>,
    position: Option<string>)
  {
    function ApplyTo(f: StaffFields): StaffFields {
      StaffFields(Pick(exhibitorId, f.exhibitorId), Pick(title, f.title),
        Pick(firstName, f.firstName), Pick(lastName, f.lastName), Pick(email, f.email),
        Pick(mobile, f.mobile), Pick(position, f.position))
    }
  }

  datatype InvitationFields = InvitationFields(companyName: string, code: string, isUsed: bool)

  type InvitationCode = Stored<InvitationFields>

  datatype InvitationPatch = InvitationPatch(
    companyName: Option<string>, code: Option<string>, isUsed: Option<bool>)
  {
    function ApplyTo(f: InvitationFields): InvitationFields {
      InvitationFields(Pick(companyName, f.companyName), Pick(code, f.code), Pick(isUsed, f.isUsed))
    }
  }

  datatype ImportHistory = ImportHistory(id: int, filename: string, date: string, records: int, status: string)

  datatype SystemSettings = SystemSettings(
    siteUrl: string, eventDate: string, cutoffDate: string,
    eventTitle: string, eventSubtitle: string, rooms: seq<string>)

  datatype SettingsPatch = SettingsPatch(
    siteUrl: Option<string>, eventDate: Option<string>, cutoffDate: Option<string>,
    eventTitle: Option<string>, eventSubtitle: Option<string>, rooms: Option<seq<string>>)
  {
    function ApplyTo(s: SystemSettings): SystemSettings {
      SystemSettings(Pick(siteUrl, s.siteUrl), Pick(eventDate, s.eventDate),
        Pick(cutoffDate, s.cutoffDate), Pick(eventTitle, s.eventTitle),
        Pick(eventSubtitle, s.eventSubtitle), Pick(rooms, s.rooms))
    }
  }

  // ---------------------------------------------------------------------
  // Merge laws: a patch overrides exactly the keys it carries, so merging
  // it twice is merging it once, and the empty patch changes nothing.

  lemma ProjectPatchLaws(p: ProjectPatch, f: ProjectFields)
    ensures p.ApplyTo(p.ApplyTo(f)) == p.ApplyTo(f)
    ensures ProjectPatch(None, None).ApplyTo(f) == f
    ensures p.name.Some? ==> p.ApplyTo(f).name == p.name.value
    ensures p.name.None? ==> p.ApplyTo(f).name == f.name
  {
  }

  lemma ParticipantPatchLaws(p: ParticipantPatch, f: ParticipantFields)
    ensures p.ApplyTo(p.ApplyTo(f)) == p.ApplyTo(f)
    ensures ParticipantPatch(None, None, None, None, None, None, None, None, None, None, None).ApplyTo(f) == f
    ensures p.attended.Some? ==> p.ApplyTo(f).attended == p.attended.value
    ensures p.attended.None? ==> p.ApplyTo(f).attended == f.attended
  {
  }

  lemma ConferencePatchLaws(p: ConferencePatch, f: ConferenceFields)
    ensures p.ApplyTo(p.ApplyTo(f)) == p.ApplyTo(f)
    ensures ConferencePatch(None, None, None, None, None, None, None, None, None, None, None, None, None).ApplyTo(f) == f
    ensures p.projectId.None? ==> p.ApplyTo(f).projectId == f.projectId
  {
  }

  lemma ExhibitorPatchLaws(p: ExhibitorPatch, f: ExhibitorFields)
    ensures p.ApplyTo(p.ApplyTo(f)) == p.ApplyTo(f)
    ensures ExhibitorPatch(None, None, None, None, None, None, None, None, None, None,
      None, None, None, None, None, None, None, None, None).ApplyTo(f) == f
    ensures p.quota.None? ==> p.ApplyTo(f).quota == f.quota
  {
  }

  lemma StaffPatchLaws(p: StaffPatch, f: StaffFields)
    ensures p.ApplyTo(p.ApplyTo(f)) == p.ApplyTo(f)
    ensures StaffPatch(None, None, None, None, None, None, None).ApplyTo(f) == f
    ensures p.exhibitorId.None? ==> p.ApplyTo(f).exhibitorId == f.exhibitorId
  {
  }

  // ---------------------------------------------------------------------
  // Staff ids

  /** The two-digit (at least) sequence part of a staff id. */
  function SequenceDigits(n: nat): (d: string)
    ensures |d| >= 2
    ensures forall i :: 0 <= i < |d| ==> IsDigit(d[i])
  {
    PadStart(NatToString(n), 2, '0')
  }

  /** The id `createStaff` gives the `n`-th staff of an exhibitor:
      `exhibitorId-NN`. */
  function StaffId(exhibitorId: string, n: nat): (id: string)
    ensures |id| >= |exhibitorId| + 3
    ensures id[..|exhibitorId|] == exhibitorId && id[|exhibitorId|] == '-'
    ensures forall i :: |exhibitorId| < i < |id| ==> IsDigit(id[i])
  {
    exhibitorId + "-" + SequenceDigits(n)
  }

  /** The digits of the sequence part read back as the sequence number. */
  lemma {:induction false} SequenceDigitsValue(n: nat)
    ensures forall i :: 0 <= i < |SequenceDigits(n)| ==> IsRadixDigit(SequenceDigits(n)[i], 10)
    ensures DigitsValue(SequenceDigits(n), 10) == n
  {
    var s := NatToString(n);
    NatToStringValue(n);
    if |s| < 2 {
      assert SequenceDigits(n) == ['0'] + s;
      LeadingZeroValue(s, 10);
    } else {
      assert SequenceDigits(n) == s;
    }
  }

  /** The sequence part of a staff id parses back to its sequence number. */
  lemma StaffIdSequence(exhibitorId: string, n: nat)
    ensures ParseInt(StaffId(exhibitorId, n)[|exhibitorId| + 1..], 10) == Int(n)
  {
    assert StaffId(exhibitorId, n)[|exhibitorId| + 1..] == SequenceDigits(n);
    SequenceDigitsValue(n);
    ParseDigitString(SequenceDigits(n));
  }

  /** Staff ids determine the exhibitor and the sequence number: the last
      `-` of an id separates the two, since the sequence part has no `-`. */
  lemma StaffIdInjective(e1: string, n1: nat, e2: string, n2: nat)
    requires StaffId(e1, n1) == StaffId(e2, n2)
    ensures e1 == e2 && n1 == n2
  {
    var id := StaffId(e1, n1);
    if |e1| < |e2| {
      assert false;
    } else if |e2| < |e1| {
      assert false;
    }
    assert e1 == id[..|e1|] == e2;
    SequenceDigitsValue(n1);
    SequenceDigitsValue(n2);
    assert SequenceDigits(n1) == id[|e1| + 1..] == SequenceDigits(n2);
  }

  /** The sequence part of the ids of the first nine staff. */
  lemma SmallSequenceDigits(n: nat)
    requires 1 <= n <= 9
    ensures SequenceDigits(n) == ['0', DigitChar(n)]
  {
    assert NatToString(n) == [DigitChar(n)];
  }

  // ---------------------------------------------------------------------
  // Participant and staff selections

  /** `type && type !== 'ALL'`: whether the type filter applies. */
  predicate TypeFilterActive(kind: Option<string>) {
    kind.Some? && kind.value != "" && kind.value != "ALL"
  }

  /** `if (query)`: whether the search applies. */
  predicate QueryActive(query: Option<string>) {
    query.Some? && query.value != ""
  }

  /** `f?.toLowerCase().includes(q)`, an absent field never matching. */
  predicate FieldMatches(f: Option<string>, q: string) {
    f.Some? && ContainsIgnoreCase(f.value, q)
  }

  /** The participant search: first name, last name, email, company or code. */
  predicate MatchesQuery(p: ParticipantFields, q: string) {
    FieldMatches(p.firstName, q) || FieldMatches(p.lastName, q) || FieldMatches(p.email, q)
    || FieldMatches(p.company, q) || FieldMatches(p.code, q)
  }

  function InProject(projectId: string): Participant -> bool {
    (p: Participant) => p.fields.projectId == projectId
  }

  function OfKind(kind: string): Participant -> bool {
    (p: Participant) => p.fields.kind == kind
  }

  function Matching(q: string): Participant -> bool {
    (p: Participant) => MatchesQuery(p.fields, q)
  }

  /** `p => p.code === code`: exact, and never true for a missing code. */
  function CodeIs(code: string): Participant -> bool {
    (p: Participant) => p.fields.code == Some(code)
  }

  /** The record `updateAttendance` leaves behind: `p` with its
      `attended` flag set and every other field as it was. */
  function Marked(p: Participant, attended: bool): (q: Participant)
    ensures q.id == p.id && q.createdAt == p.createdAt && q.fields.attended == Some(attended)
    ensures q.fields.(attended := p.fields.attended) == p.fields
  {
    p.(fields := p.fields.(attended := Some(attended)))
  }

  /** The participants after `updateAttendance(code, attended)`: the first
      one whose code is exactly `code` is marked, and nobody else changes. */
  function WithAttendance(ps: seq<Participant>, code: string, attended: bool): (r: seq<Participant>)
    ensures |r| == |ps|
    ensures forall k :: 0 <= k < |r| ==> r[k].id == ps[k].id && r[k].fields.code == ps[k].fields.code
    ensures forall k :: 0 <= k < |r| && k != FindIndex(ps, CodeIs(code)) ==> r[k] == ps[k]
    ensures FindIndex(ps, CodeIs(code)) >= 0 ==>
      r[FindIndex(ps, CodeIs(code))] == Marked(ps[FindIndex(ps, CodeIs(code))], attended)
  {
    var i := FindIndex(ps, CodeIs(code));
    if i < 0 then ps else ps[i := Marked(ps[i], attended)]
  }

  /** `p => p.code?.toLowerCase() === code.toLowerCase()`. */
  function CodeIsIgnoreCase(code: string): Participant -> bool {
    (p: Participant) => p.fields.code.Some? && Lower(p.fields.code.value) == Lower(code)
  }

  function StaffOf(exhibitorId: string): Staff -> bool {
    (s: Staff) => s.fields.exhibitorId == exhibitorId
  }

  function NotStaffOf(exhibitorId: string): Staff -> bool {
    (s: Staff) => s.fields.exhibitorId != exhibitorId
  }

  function ExhibitorInProject(projectId: string): Exhibitor -> bool {
    (e: Exhibitor) => e.fields.projectId == projectId
  }

  function ConferenceInProject(projectId: string): Conference -> bool {
    (c: Conference) => c.fields.projectId == projectId
  }

  /** `(a, b) => a.date.getTime() - b.date.getTime()` as "not after". */
  function ByDate(): (Conference, Conference) -> bool {
    (a: Conference, b: Conference) => LexLe(a.fields.date, b.fields.date)
  }

  lemma ByDateIsTotalPreorder(s: seq<Conference>)
    ensures TotalPreorderOn(s, ByDate())
  {
    forall a: Conference, b: Conference | a in s && b in s
      ensures ByDate()(a, b) || ByDate()(b, a)
    {
      LexLeTotal(a.fields.date, b.fields.date);
    }
    forall a: Conference, b: Conference, c: Conference
      | a in s && b in s && c in s && ByDate()(a, b) && ByDate()(b, c)
      ensures ByDate()(a, c)
    {
      LexLeTransitive(a.fields.date, b.fields.date, c.fields.date);
    }
  }

  /** `getExhibitors`: an exhibitor with `_count.staff`. */
  datatype ExhibitorSummary = ExhibitorSummary(exhibitor: Exhibitor, staffCount: nat)

  /** `getExhibitorById`: an exhibitor with its staff. */
  datatype ExhibitorDetail = ExhibitorDetail(exhibitor: Exhibitor, staff: seq<Staff>)

  /** `exhibitors.map(e => ({ ...e, _count: { staff } }))`: one summary
      per exhibitor, in order, each counting that exhibitor's staff. */
  function Summaries(es: seq<Exhibitor>, staff: seq<Staff>): (r: seq<ExhibitorSummary>)
    ensures |r| == |es|
    ensures forall k :: 0 <= k < |r| ==>
      r[k].exhibitor == es[k] && r[k].staffCount == |Filter(staff, StaffOf(es[k].id))|
    ensures forall x: ExhibitorSummary :: x in r <==> x.exhibitor in es && x.staffCount == |Filter(staff, StaffOf(x.exhibitor.id))|
  {
    var r := seq(|es|, i requires 0 <= i < |es| => ExhibitorSummary(es[i], |Filter(staff, StaffOf(es[i].id))|));
    assert forall x: ExhibitorSummary :: x.exhibitor in es && x.staffCount == |Filter(staff, StaffOf(x.exhibitor.id))| ==> x in r by {
      forall x: ExhibitorSummary | x.exhibitor in es && x.staffCount == |Filter(staff, StaffOf(x.exhibitor.id))| ensures x in r {
        var k :| 0 <= k < |es| && es[k] == x.exhibitor;
        assert r[k] == x;
      }
    }
    r
  }

  /** The records `createManyParticipants` appends for `items`, the `k`-th
      taking the `k`-th fresh id after `first`. */
  function NewParticipants(items: seq<ParticipantFields>, first: nat, now: int): (r: seq<Participant>)
    ensures |r| == |items|
    ensures forall k :: 0 <= k < |r| ==> r[k].fields == items[k] && r[k].createdAt == now
  {
    seq(|items|, k requires 0 <= k < |items| => Stored(FreshId(first + k), items[k], now))
  }

  /** The staff list after `createStaff(data)`: the new member's id is the
      exhibitor id followed by its current staff count plus one. */
  function WithNewStaff(staff: seq<Staff>, data: StaffFields, now: int): (r: seq<Staff>)
    ensures |r| == |staff| + 1 && r[..|staff|] == staff
    ensures r[|staff|].fields == data && r[|staff|].createdAt == now
    ensures r[|staff|].id == StaffId(data.exhibitorId, |Filter(staff, StaffOf(data.exhibitorId))| + 1)
  {
    staff + [Stored(StaffId(data.exhibitorId, |Filter(staff, StaffOf(data.exhibitorId))| + 1), data, now)]
  }

  // ---------------------------------------------------------------------
  // The store

  class MockService {
    const users: seq<User> := USERS
    const recentImports: seq<ImportHistory>
    var projectsList: seq<Project>
    var settings: SystemSettings
    var invitationCodes: seq<InvitationCode>
    var organizers: seq<Organizer>
    var participants: seq<Participant>
    var conferences: seq<Conference>
    var exhibitors: seq<Exhibitor>
    var staffMembers: seq<Staff>
    /** How many ids `uuidv4` has handed out. */
    var issuedIds: nat

    /** A store holding the given records. */
    constructor (projects: seq<Project>, settings: SystemSettings,
                 invitationCodes: seq<InvitationCode>, recentImports: seq<ImportHistory>,
                 organizers: seq<Organizer>, participants: seq<Participant>,
                 conferences: seq<Conference>, exhibitors: seq<Exhibitor>, staff: seq<Staff>)
      ensures projectsList == projects && this.settings == settings
      ensures this.invitationCodes == invitationCodes && this.recentImports == recentImports
      ensures this.organizers == organizers && this.participants == participants
      ensures this.conferences == conferences && this.exhibitors == exhibitors
      ensures staffMembers == staff && issuedIds == 0
    {
      this.recentImports := recentImports;
      projectsList := projects;
      this.settings := settings;
      this.invitationCodes := invitationCodes;
      this.organizers := organizers;
      this.participants := participants;
      this.conferences := conferences;
      this.exhibitors := exhibitors;
      staffMembers := staff;
      issuedIds := 0;
    }

    /** `uuidv4()`. */
    method NextId() returns (id: string)
      modifies this`issuedIds
      ensures id == FreshId(old(issuedIds)) && issuedIds == old(issuedIds) + 1
    {
      id := FreshId(issuedIds);
      issuedIds := issuedIds + 1;
    }

    // --- Users

    function FindUserByUsername(username: string): (r: Option<User>)
      ensures r.Some? ==> r.value in users && r.value.username == username
      ensures r.None? <==> forall u :: u in users ==> u.username != username
    {
      Find(users, (u: User) => u.username == username)
    }

    // --- Projects

    function GetProjectById(id: string): (r: Option<Project>)
      reads this
      ensures r.Some? ==> r.value in projectsList && r.value.id == id
      ensures r.None? <==> forall p :: p in projectsList ==> p.id != id
      ensures r.Some? ==> exists i :: (0 <= i < |projectsList| && projectsList[i] == r.value
        && forall j :: 0 <= j < i ==> projectsList[j].id != id)
    {
      Find(projectsList, WithId(id))
    }

    method CreateProject(data: ProjectFields, now: int) returns (p: Project)
      modifies this`projectsList, this`issuedIds
      ensures p == Stored(FreshId(old(issuedIds)), data, now)
      ensures projectsList == old(projectsList) + [p] && issuedIds == old(issuedIds) + 1
    {
      var id := NextId();
      p := Stored(id, data, now);
      projectsList := projectsList + [p];
    }

    method UpdateProject(id: string, patch: ProjectPatch) returns (r: Result<Project>)
      modifies this`projectsList
      ensures var i := FindIndex(old(projectsList), WithId(id));
        if i < 0 then r == Err("Project not found") && projectsList == old(projectsList)
        else (r == Ok(old(projectsList)[i].(fields := patch.ApplyTo(old(projectsList)[i].fields)))
          && projectsList == old(projectsList)[i := r.value])
    {
      var i := FindIndex(projectsList, WithId(id));
      if i == -1 {
        return Err("Project not found");
      }
      projectsList := projectsList[i := projectsList[i].(fields := patch.ApplyTo(projectsList[i].fields))];
      r := Ok(projectsList[i]);
    }

    method DeleteProject(id: string)
      modifies this`projectsList
      ensures projectsList == Filter(old(projectsList), WithoutId(id))
    {
      projectsList := Filter(projectsList, WithoutId(id));
    }

    // --- Organizers

    method CreateOrganizer(data: OrganizerFields, now: int) returns (o: Organizer)
      modifies this`organizers, this`issuedIds
      ensures o == Stored(FreshId(old(issuedIds)), data, now)
      ensures organizers == old(organizers) + [o] && issuedIds == old(issuedIds) + 1
    {
      var id := NextId();
      o := Stored(id, data, now);
      organizers := organizers + [o];
    }

    method UpdateOrganizer(id: string, patch: OrganizerPatch) returns (r: Result<Organizer>)
      modifies this`organizers
      ensures var i := FindIndex(old(organizers), WithId(id));
        if i < 0 then r == Err("Organizer not found") && organizers == old(organizers)
        else (r == Ok(old(organizers)[i].(fields := patch.ApplyTo(old(organizers)[i].fields)))
          && organizers == old(organizers)[i := r.value])
    {
      var i := FindIndex(organizers, WithId(id));
      if i == -1 {
        return Err("Organizer not found");
      }
      organizers := organizers[i := organizers[i].(fields := patch.ApplyTo(organizers[i].fields))];
      r := Ok(organizers[i]);
    }

    method DeleteOrganizer(id: string)
      modifies this`organizers
      ensures organizers == Filter(old(organizers), WithoutId(id))
    {
      organizers := Filter(organizers, WithoutId(id));
    }

    // --- Participants

    /** `getParticipants(projectId, query?, type?)`. */
    function GetParticipants(projectId: string, query: Option<string>, kind: Option<string>): (r: seq<Participant>)
      reads this
      ensures |r| <= |participants|
      ensures forall p :: p in r <==>
        p in participants && p.fields.projectId == projectId
        && (TypeFilterActive(kind) ==> p.fields.kind == kind.value)
        && (QueryActive(query) ==> MatchesQuery(p.fields, query.value))
    {
      var inProject := Filter(participants, InProject(projectId));
      var ofKind := if TypeFilterActive(kind) then Filter(inProject, OfKind(kind.value)) else inProject;
      if QueryActive(query) then Filter(ofKind, Matching(query.value)) else ofKind
    }

    method CreateParticipant(data: ParticipantFields, now: int) returns (p: Participant)
      modifies this`participants, this`issuedIds
      ensures p == Stored(FreshId(old(issuedIds)), data, now)
      ensures participants == old(participants) + [p] && issuedIds == old(issuedIds) + 1
    {
      var id := NextId();
      p := Stored(id, data, now);
      participants := participants + [p];
    }

    method UpdateParticipant(id: string, patch: ParticipantPatch) returns (r: Result<Participant>)
      modifies this`participants
      ensures var i := FindIndex(old(participants), WithId(id));
        if i < 0 then r == Err("Participant not found") && participants == old(participants)
        else (r == Ok(old(participants)[i].(fields := patch.ApplyTo(old(participants)[i].fields)))
          && participants == old(participants)[i := r.value])
    {
      var i := FindIndex(participants, WithId(id));
      if i == -1 {
        return Err("Participant not found");
      }
      participants := participants[i := participants[i].(fields := patch.ApplyTo(participants[i].fields))];
      r := Ok(participants[i]);
    }

    /** `updateAttendance(code, attended)`: marks the first participant whose
        code is exactly `code`. */
    method UpdateAttendance(code: string, attended: bool) returns (r: Option<Participant>)
      modifies this`participants
      ensures participants == WithAttendance(old(participants), code, attended)
      ensures var i := FindIndex(old(participants), CodeIs(code));
        if i < 0 then r == None else r == Some(participants[i])
    {
      var i := FindIndex(participants, CodeIs(code));
      if i == -1 {
        return None;
      }
      var p := participants[i];
      p := p.(fields := p.fields.(attended := Some(attended)));
      participants := participants[i := p];
      r := Some(p);
    }

    method DeleteParticipant(id: string)
      modifies this`participants
      ensures participants == Filter(old(participants), WithoutId(id))
    {
      participants := Filter(participants, WithoutId(id));
    }

    /** `createManyParticipants(data)`: one `createParticipant` per item, in
        order, returning how many were created. */
    method CreateManyParticipants(data: seq<ParticipantFields>, now: int) returns (count: nat)
      modifies this`participants, this`issuedIds
      ensures count == |data|
      ensures participants == old(participants) + NewParticipants(data, old(issuedIds), now)
      ensures issuedIds == old(issuedIds) + |data|
    {
      count := 0;
      while count < |data|
        invariant count <= |data|
        invariant issuedIds == old(issuedIds) + count
        invariant participants == old(participants) + NewParticipants(data[..count], old(issuedIds), now)
      {
        ghost var before := participants;
        var p := CreateParticipant(data[count], now);
        assert NewParticipants(data[..count + 1], old(issuedIds), now)
          == NewParticipants(data[..count], old(issuedIds), now) + [p];
        count := count + 1;
      }
      assert data[..count] == data;
    }

    /** `findParticipantByCode(code)`: the first participant whose code
        equals `code` ignoring case; codes need not be unique. */
    function FindParticipantByCode(code: string): (r: Option<Participant>)
      reads this
      ensures r.Some? ==> (r.value in participants && r.value.fields.code.Some?
        && Lower(r.value.fields.code.value) == Lower(code))
      ensures r.None? <==> forall p :: p in participants ==>
        p.fields.code.None? || Lower(p.fields.code.value) != Lower(code)
      ensures r.Some? ==> exists i :: (0 <= i < |participants| && participants[i] == r.value
        && forall j :: 0 <= j < i ==>
          (participants[j].fields.code.None? || Lower(participants[j].fields.code.value) != Lower(code)))
    {
      Find(participants, CodeIsIgnoreCase(code))
    }

    // --- Conferences

    /** `getConferences(projectId)`: the project's conferences, earliest
        date first. */
    function GetConferences(projectId: string): (r: seq<Conference>)
      reads this
      ensures forall c :: c in r <==> c in conferences && c.fields.projectId == projectId
      ensures multiset(r) == multiset(Filter(conferences, ConferenceInProject(projectId)))
      ensures forall i, j :: 0 <= i < j < |r| ==> LexLe(r[i].fields.date, r[j].fields.date)
    {
      var mine := Filter(conferences, ConferenceInProject(projectId));
      ByDateIsTotalPreorder(mine);
      var r := Sort(mine, ByDate());
      assert forall c :: c in r <==> c in multiset(mine);
      r
    }

    function GetConferenceById(id: string): (r: Option<Conference>)
      reads this
      ensures r.Some? ==> r.value in conferences && r.value.id == id
      ensures r.None? <==> forall c :: c in conferences ==> c.id != id
      ensures r.Some? ==> exists i :: (0 <= i < |conferences| && conferences[i] == r.value
        && forall j :: 0 <= j < i ==> conferences[j].id != id)
    {
      Find(conferences, WithId(id))
    }

    method CreateConference(data: ConferenceFields, now: int) returns (c: Conference)
      modifies this`conferences, this`issuedIds
      ensures c == Stored(FreshId(old(issuedIds)), data, now)
      ensures conferences == old(conferences) + [c] && issuedIds == old(issuedIds) + 1
    {
      var id := NextId();
      c := Stored(id, data, now);
      conferences := conferences + [c];
    }

    method UpdateConference(id: string, patch: ConferencePatch) returns (r: Result<Conference>)
      modifies this`conferences
      ensures var i := FindIndex(old(conferences), WithId(id));
        if i < 0 then r == Err("Conference not found") && conferences == old(conferences)
        else (r == Ok(old(conferences)[i].(fields := patch.ApplyTo(old(conferences)[i].fields)))
          && conferences == old(conferences)[i := r.value])
    {
      var i := FindIndex(conferences, WithId(id));
      if i == -1 {
        return Err("Conference not found");
      }
      conferences := conferences[i := conferences[i].(fields := patch.ApplyTo(conferences[i].fields))];
      r := Ok(conferences[i]);
    }

    method DeleteConference(id: string)
      modifies this`conferences
      ensures conferences == Filter(old(conferences), WithoutId(id))
    {
      conferences := Filter(conferences, WithoutId(id));
    }

    // --- Exhibitors

    /** `getExhibitors(projectId)`: the project's exhibitors, in store order,
        each with the number of staff it has. */
    function GetExhibitors(projectId: string): (r: seq<ExhibitorSummary>)
      reads this
      ensures |r| <= |exhibitors|
      ensures forall x :: x in r <==>
        x.exhibitor in exhibitors && x.exhibitor.fields.projectId == projectId
        && x.staffCount == |GetStaffByExhibitorId(x.exhibitor.id)|
      ensures var mine := Filter(exhibitors, ExhibitorInProject(projectId));
        |r| == |mine| && forall k :: 0 <= k < |r| ==>
          r[k].exhibitor == mine[k] && r[k].staffCount == |GetStaffByExhibitorId(mine[k].id)|
    {
      Summaries(Filter(exhibitors, ExhibitorInProject(projectId)), staffMembers)
    }

    function GetExhibitorById(id: string): (r: Option<ExhibitorDetail>)
      reads this
      ensures r.Some? ==> (r.value.exhibitor in exhibitors && r.value.exhibitor.id == id
        && r.value.staff == GetStaffByExhibitorId(id))
      ensures r.None? <==> forall e :: e in exhibitors ==> e.id != id
      ensures r.Some? ==> exists i :: (0 <= i < |exhibitors| && exhibitors[i] == r.value.exhibitor
        && forall j :: 0 <= j < i ==> exhibitors[j].id != id)
    {
      match Find(exhibitors, WithId(id))
      case None => None
      case Some(e) => Some(ExhibitorDetail(e, Filter(staffMembers, StaffOf(id))))
    }

    method CreateExhibitor(data: ExhibitorFields, now: int) returns (e: Exhibitor)
      modifies this`exhibitors, this`issuedIds
      ensures e == Stored(FreshId(old(issuedIds)), data, now)
      ensures exhibitors == old(exhibitors) + [e] && issuedIds == old(issuedIds) + 1
    {
      var id := NextId();
      e := Stored(id, data, now);
      exhibitors := exhibitors + [e];
    }

    method UpdateExhibitor(id: string, patch: ExhibitorPatch) returns (r: Result<Exhibitor>)
      modifies this`exhibitors
      ensures var i := FindIndex(old(exhibitors), WithId(id));
        if i < 0 then r == Err("Exhibitor not found") && exhibitors == old(exhibitors)
        else (r == Ok(old(exhibitors)[i].(fields := patch.ApplyTo(old(exhibitors)[i].fields)))
          && exhibitors == old(exhibitors)[i := r.value])
    {
      var i := FindIndex(exhibitors, WithId(id));
      if i == -1 {
        return Err("Exhibitor not found");
      }
      exhibitors := exhibitors[i := exhibitors[i].(fields := patch.ApplyTo(exhibitors[i].fields))];
      r := Ok(exhibitors[i]);
    }

    /** `deleteExhibitor(id)`: removes the exhibitor and all of its staff. */
    method DeleteExhibitor(id: string)
      modifies this`exhibitors, this`staffMembers
      ensures exhibitors == Filter(old(exhibitors), WithoutId(id))
      ensures staffMembers == Filter(old(staffMembers), NotStaffOf(id))
    {
      exhibitors := Filter(exhibitors, WithoutId(id));
      staffMembers := Filter(staffMembers, NotStaffOf(id));
    }

    // --- Staff

    function GetStaffByExhibitorId(exhibitorId: string): (r: seq<Staff>)
      reads this
      ensures forall s :: s in r <==> s in staffMembers && s.fields.exhibitorId == exhibitorId
    {
      Filter(staffMembers, StaffOf(exhibitorId))
    }

    /** `getStaffById(id)`: the first member with that id; ids can repeat
        after a delete (`CollisionAfterDelete`). */
    function GetStaffById(id: string): (r: Option<Staff>)
      reads this
      ensures r.Some? ==> r.value in staffMembers && r.value.id == id
      ensures r.None? <==> forall s :: s in staffMembers ==> s.id != id
      ensures r.Some? ==> exists i :: (0 <= i < |staffMembers| && staffMembers[i] == r.value
        && forall j :: 0 <= j < i ==> staffMembers[j].id != id)
    {
      Find(staffMembers, WithId(id))
    }

    /** `createStaff(data)`: the id is the exhibitor id followed by the
        exhibitor's current staff count plus one, padded to two digits. */
    method CreateStaff(data: StaffFields, now: int) returns (s: Staff)
      modifies this`staffMembers
      ensures staffMembers == WithNewStaff(old(staffMembers), data, now)
      ensures s == staffMembers[|staffMembers| - 1]
    {
      var existing := Filter(staffMembers, StaffOf(data.exhibitorId));
      var sequence := |existing| + 1;
      s := Stored(data.exhibitorId + "-" + PadStart(NatToString(sequence), 2, '0'), data, now);
      staffMembers := staffMembers + [s];
    }

    method UpdateStaff(id: string, patch: StaffPatch) returns (r: Result<Staff>)
      modifies this`staffMembers
      ensures var i := FindIndex(old(staffMembers), WithId(id));
        if i < 0 then r == Err("Staff not found") && staffMembers == old(staffMembers)
        else (r == Ok(old(staffMembers)[i].(fields := patch.ApplyTo(old(staffMembers)[i].fields)))
          && staffMembers == old(staffMembers)[i := r.value])
    {
      var i := FindIndex(staffMembers, WithId(id));
      if i == -1 {
        return Err("Staff not found");
      }
      staffMembers := staffMembers[i := staffMembers[i].(fields := patch.ApplyTo(staffMembers[i].fields))];
      r := Ok(staffMembers[i]);
    }

    method DeleteStaff(id: string)
      modifies this`staffMembers
      ensures staffMembers == Filter(old(staffMembers), WithoutId(id))
    {
      staffMembers := Filter(staffMembers, WithoutId(id));
    }

    // --- Settings

    method UpdateSettings(patch: SettingsPatch) returns (s: SystemSettings)
      modifies this`settings
      ensures settings == patch.ApplyTo(old(settings)) && s == settings
    {
      settings := patch.ApplyTo(settings);
      s := settings;
    }

    // --- Invitation codes

    /** `createInvitationCode(data)`: a new code always starts unused. */
    method CreateInvitationCode(companyName: string, code: string, now: int) returns (c: InvitationCode)
      modifies this`invitationCodes, this`issuedIds
      ensures c == Stored(FreshId(old(issuedIds)), InvitationFields(companyName, code, false), now)
      ensures invitationCodes == old(invitationCodes) + [c] && issuedIds == old(issuedIds) + 1
    {
      var id := NextId();
      c := Stored(id, InvitationFields(companyName, code, false), now);
      invitationCodes := invitationCodes + [c];
    }

    method UpdateInvitationCode(id: string, patch: InvitationPatch) returns (r: Result<InvitationCode>)
      modifies this`invitationCodes
      ensures var i := FindIndex(old(invitationCodes), WithId(id));
        if i < 0 then r == Err("Invitation code not found") && invitationCodes == old(invitationCodes)
        else (r == Ok(old(invitationCodes)[i].(fields := patch.ApplyTo(old(invitationCodes)[i].fields)))
          && invitationCodes == old(invitationCodes)[i := r.value])
    {
      var i := FindIndex(invitationCodes, WithId(id));
      if i == -1 {
        return Err("Invitation code not found");
      }
      invitationCodes := invitationCodes[i := invitationCodes[i].(fields := patch.ApplyTo(invitationCodes[i].fields))];
      r := Ok(invitationCodes[i]);
    }

    method DeleteInvitationCode(id: string)
      modifies this`invitationCodes
      ensures invitationCodes == Filter(old(invitationCodes), WithoutId(id))
    {
      invitationCodes := Filter(invitationCodes, WithoutId(id));
    }
  }

  // ---------------------------------------------------------------------
  // Properties of the store's operations

  /** A delete removes exactly the records with that id and keeps every
      other record, in order. */
  lemma DeleteRemovesExactly<T>(s: seq<Stored<T>>, id: string, a: seq<Stored<T>>, b: seq<Stored<T>>)
    requires s == a + b
    ensures forall r :: r in Filter(s, WithoutId(id)) <==> r in s && r.id != id
    ensures Filter(s, WithoutId(id)) == Filter(a, WithoutId(id)) + Filter(b, WithoutId(id))
  {
    FilterConcat(a, b, WithoutId(id));
  }

  /** Deleting an id nothing carries changes nothing. */
  lemma DeleteAbsentId<T>(s: seq<Stored<T>>, id: string)
    requires forall i :: 0 <= i < |s| ==> s[i].id != id
    ensures Filter(s, WithoutId(id)) == s
  {
    FilterAll(s, WithoutId(id));
  }

  /** A search for the empty query or an absent type restricts only to the
      project. */
  lemma ParticipantsUnfiltered(store: MockService, projectId: string, query: Option<string>)
    requires query.None? || query == Some("")
    ensures store.GetParticipants(projectId, query, None) == Filter(store.participants, InProject(projectId))
    ensures store.GetParticipants(projectId, query, Some("ALL")) == Filter(store.participants, InProject(projectId))
  {
  }

  /** A participant `updateAttendance` can mark is one `findParticipantByCode`
      finds as well, since an exact match is a case-insensitive one. */
  lemma AttendanceCodeIsFound(store: MockService, code: string)
    requires FindIndex(store.participants, CodeIs(code)) >= 0
    ensures store.FindParticipantByCode(code).Some?
  {
    var i := FindIndex(store.participants, CodeIs(code));
    assert CodeIsIgnoreCase(code)(store.participants[i]);
  }

  /** The ids of an exhibitor's first three staff. */
  lemma FirstStaffIds()
    ensures StaffId("ex-1", 1) == "ex-1-01"
    ensures StaffId("ex-1", 2) == "ex-1-02"
    ensures StaffId("ex-1", 3) == "ex-1-03"
  {
    SmallSequenceDigits(1);
    SmallSequenceDigits(2);
    SmallSequenceDigits(3);
  }

  /** From no staff, three creates for one exhibitor give the sequence
      numbers 1, 2 and 3 (`ex-1-01`, `ex-1-02`, `ex-1-03` for `ex-1`). */
  lemma ThreeStaffFromEmpty(data: StaffFields, now: int)
    ensures var e := data.exhibitorId;
      var s := WithNewStaff(WithNewStaff(WithNewStaff([], data, now), data, now), data, now);
      |s| == 3 && s[0].id == StaffId(e, 1) && s[1].id == StaffId(e, 2) && s[2].id == StaffId(e, 3)
  {
    var s1 := WithNewStaff([], data, now);
    FilterAll(s1, StaffOf(data.exhibitorId));
    var s2 := WithNewStaff(s1, data, now);
    FilterAll(s2, StaffOf(data.exhibitorId));
  }

  /** With staff `-01` and `-02`, deleting `-01` and creating another issues
      `-02` again, so two staff share an id. */
  lemma CollisionAfterDelete(data: StaffFields, now: int)
    ensures var e := data.exhibitorId;
      var s := WithNewStaff(WithNewStaff([], data, now), data, now);
      var t := WithNewStaff(Filter(s, WithoutId(StaffId(e, 1))), data, now);
      |t| == 2 && t[0].id == t[1].id == StaffId(e, 2)
  {
    var e := data.exhibitorId;
    var s1 := WithNewStaff([], data, now);
    var first := s1[0];
    assert s1 == [first];
    FilterAll(s1, StaffOf(e));
    var s := WithNewStaff(s1, data, now);
    var second := s[1];
    assert s == [first] + [second];
    if StaffId(e, 2) == StaffId(e, 1) {
      StaffIdInjective(e, 2, e, 1);
    }
    FilterConcat([first], [second], WithoutId(StaffId(e, 1)));
    FilterSingleton(first, WithoutId(StaffId(e, 1)));
    FilterSingleton(second, WithoutId(StaffId(e, 1)));
    var rest := Filter(s, WithoutId(StaffId(e, 1)));
    assert rest == [second];
    FilterSingleton(second, StaffOf(e));
    assert |Filter(rest, StaffOf(e))| == 1;
    var t := WithNewStaff(rest, data, now);
    assert t[0] == second && t[1].id == StaffId(e, 2);
  }
}
