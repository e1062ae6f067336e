/** The organizer server actions: creating an organizer under a username
    no login already uses, and editing an organizer's username and email. */
module OrganizerActions {
  import opened Wrappers
  import opened Lists
  import opened FormData
  import opened MockStore

  const USERNAME_TAKEN: string := "Username already exists"
  const UPDATE_FAILED: string := "Failed to update organizer"
  const DEFAULT_ROLE: string := "ORGANIZER"

  /** The organizer `createOrganizer` records for a form: a missing or
      empty role becomes `ORGANIZER`. */
  function NewOrganizer(form: Form): (o: OrganizerFields)
    ensures o.username == Text(form, "username") && o.email == Text(form, "email")
    ensures o.projectId == Text(form, "projectId")
    ensures o.role == (if Text(form, "role") == "" then DEFAULT_ROLE else form["role"])
  {
    OrganizerFields(Text(form, "username"), Text(form, "email"), OrDefault(Get(form, "role"), DEFAULT_ROLE),
      Text(form, "projectId"))
  }

  /** `updateOrganizer`'s patch: the username and email, nothing else. */
  function OrganizerEdit(form: Form): (p: OrganizerPatch)
    ensures p.username == Some(Text(form, "username")) && p.email == Some(Text(form, "email"))
    ensures p.role.None? && p.projectId.None?
  {
    OrganizerPatch(Some(Text(form, "username")), Some(Text(form, "email")), None, None)
  }

  /** `createOrganizer(formData)`: refused, with nothing created, when the
      store's login table has the username (the organizer list is not
      consulted); otherwise one organizer is appended. */
  method CreateOrganizer(store: MockService, form: Form, now: int) returns (r: Outcome)
    modifies store`organizers, store`issuedIds
    ensures store.FindUserByUsername(Text(form, "username")).Some? ==>
      r == Failure(USERNAME_TAKEN) && store.organizers == old(store.organizers)
      && store.issuedIds == old(store.issuedIds)
    ensures store.FindUserByUsername(Text(form, "username")).None? ==>
      r == Success
      && store.organizers == old(store.organizers) + [Stored(FreshId(old(store.issuedIds)), NewOrganizer(form), now)]
      && store.issuedIds == old(store.issuedIds) + 1
  {
    var data := NewOrganizer(form);
    var existingUser := store.FindUserByUsername(data.username);
    if existingUser.Some? {
      return Failure(USERNAME_TAKEN);
    }
    var _ := store.CreateOrganizer(data, now);
    r := Success;
  }

  /** `updateOrganizer(id, formData)`: an unknown id is reported as a
      failure; otherwise that organizer's username and email are replaced
      in place. */
  method UpdateOrganizer(store: MockService, id: string, form: Form) returns (r: Outcome)
    modifies store`organizers
    ensures var i := FindIndex(old(store.organizers), WithId(id));
      if i < 0 then r == Failure(UPDATE_FAILED) && store.organizers == old(store.organizers)
      else (r == Success && store.organizers == old(store.organizers)[i := old(store.organizers)[i].(
        fields := old(store.organizers)[i].fields.(username := Text(form, "username"), email := Text(form, "email")))])
  {
    var result := store.UpdateOrganizer(id, OrganizerEdit(form));
    if result.Err? {
      return Failure(UPDATE_FAILED);
    }
    r := Success;
  }

  /** The three fixed logins' usernames are taken in every store. */
  lemma FixedUsernamesTaken(store: MockService)
    ensures store.FindUserByUsername("admin").Some?
    ensures store.FindUserByUsername("organizer").Some?
    ensures store.FindUserByUsername("exhibitor").Some?
  {
    assert store.users[0].username == "admin";
    assert store.users[1].username == "organizer";
    assert store.users[2].username == "exhibitor";
  }

  /** Any other username is free, whatever organizers the store already
      lists under it. */
  lemma OtherUsernamesFree(store: MockService, username: string)
    requires username != "admin" && username != "organizer" && username != "exhibitor"
    ensures store.FindUserByUsername(username).None?
  {
  }

  /** An edit keeps the organizer's role and project. */
  lemma EditKeepsRoleAndProject(f: OrganizerFields, form: Form)
    ensures OrganizerEdit(form).ApplyTo(f).role == f.role
    ensures OrganizerEdit(form).ApplyTo(f).projectId == f.projectId
  {
  }
}
