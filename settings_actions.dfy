/** The settings server actions: the general event settings and the list
    of conference rooms, both kept in the store's settings record. */
module SettingsActions {
  import opened Wrappers
  import opened Lists
  import opened FormData
  import opened MockStore

  // ---------------------------------------------------------------------
  // General settings

  /** `updateSettings`' `updateData`: the site URL, title and subtitle
      always, each date only when a non-empty one was sent, the rooms
      never. Dates are kept as their text. */
  function SettingsUpdate(form: Form): (p: SettingsPatch)
    ensures p.siteUrl == Some(Text(form, "siteUrl"))
    ensures p.eventTitle == Some(Text(form, "eventTitle"))
    ensures p.eventSubtitle == Some(Text(form, "eventSubtitle"))
    ensures p.eventDate.Some? <==> Text(form, "eventDate") != ""
    ensures p.cutoffDate.Some? <==> Text(form, "cutoffDate") != ""
    ensures p.rooms.None?
  {
    var eventDate := Text(form, "eventDate");
    var cutoffDate := Text(form, "cutoffDate");
    SettingsPatch(Some(Text(form, "siteUrl")),
      if eventDate != "" then Some(eventDate) else None,
      if cutoffDate != "" then Some(cutoffDate) else None,
      Some(Text(form, "eventTitle")), Some(Text(form, "eventSubtitle")), None)
  }

  /** `updateSettings(formData)`. */
  method UpdateSettings(store: MockService, form: Form)
    modifies store`settings
    ensures store.settings == SettingsUpdate(form).ApplyTo(old(store.settings))
  {
    var _ := store.UpdateSettings(SettingsUpdate(form));
  }

  /** What an update leaves: the three texts as sent, a date replaced only
      by a non-empty one, the rooms as they were. */
  lemma UpdatedSettings(s: SystemSettings, form: Form)
    ensures var t := SettingsUpdate(form).ApplyTo(s);
      t.siteUrl == Text(form, "siteUrl") && t.eventTitle == Text(form, "eventTitle")
      && t.eventSubtitle == Text(form, "eventSubtitle")
      && t.eventDate == (if Text(form, "eventDate") != "" then Text(form, "eventDate") else s.eventDate)
      && t.cutoffDate == (if Text(form, "cutoffDate") != "" then Text(form, "cutoffDate") else s.cutoffDate)
      && t.rooms == s.rooms
  {
  }

  /** Sending the same form twice is sending it once. */
  lemma UpdateSettingsIdempotent(s: SystemSettings, form: Form)
    ensures SettingsUpdate(form).ApplyTo(SettingsUpdate(form).ApplyTo(s)) == SettingsUpdate(form).ApplyTo(s)
  {
  }

  // ---------------------------------------------------------------------
  // Rooms

  /** The room list after `addRoom(name)`: the name is appended unless the
      list has it already. */
  function RoomsAfterAdd(rooms: seq<string>, name: string): (r: seq<string>)
    ensures name in r
    ensures forall x :: x in r <==> x in rooms || x == name
    ensures |r| == |rooms| + (if name in rooms then 0 else 1) && r[..|rooms|] == rooms
  {
    if name in rooms then rooms else rooms + [name]
  }

  function IsNot(name: string): string -> bool {
    r => r != name
  }

  /** The room list after `deleteRoom(name)`: every other room, in order. */
  function RoomsAfterDelete(rooms: seq<string>, name: string): (r: seq<string>)
    ensures name !in r
    ensures forall x :: x != name ==> (x in r <==> x in rooms)
  {
    Filter(rooms, IsNot(name))
  }

  predicate NoDuplicates(rooms: seq<string>) {
    forall i, j :: 0 <= i < j < |rooms| ==> rooms[i] != rooms[j]
  }

  /** Adding a room twice is adding it once; adding one already listed
      changes nothing. */
  lemma AddRoomIdempotent(rooms: seq<string>, name: string)
    ensures RoomsAfterAdd(RoomsAfterAdd(rooms, name), name) == RoomsAfterAdd(rooms, name)
    ensures name in rooms ==> RoomsAfterAdd(rooms, name) == rooms
  {
  }

  /** A new room goes at the end, after the others in their order. */
  lemma AddNewRoomAppends(rooms: seq<string>, name: string)
    requires name !in rooms
    ensures RoomsAfterAdd(rooms, name) == rooms + [name]
  {
  }

  /** Rooms added only through `addRoom` stay distinct. */
  lemma AddRoomKeepsDistinct(rooms: seq<string>, name: string)
    requires NoDuplicates(rooms)
    ensures NoDuplicates(RoomsAfterAdd(rooms, name))
  {
  }

  /** Deleting a room nobody listed changes nothing. */
  lemma DeleteAbsentRoom(rooms: seq<string>, name: string)
    requires name !in rooms
    ensures RoomsAfterDelete(rooms, name) == rooms
  {
    FilterAll(rooms, IsNot(name));
  }

  /** Deleting a room just added restores the list. */
  lemma DeleteUndoesAdd(rooms: seq<string>, name: string)
    requires name !in rooms
    ensures RoomsAfterDelete(RoomsAfterAdd(rooms, name), name) == rooms
  {
    FilterConcat(rooms, [name], IsNot(name));
    FilterSingleton(name, IsNot(name));
    DeleteAbsentRoom(rooms, name);
  }

  /** Deleting keeps the others in their order: it distributes over a split
      of the list. */
  lemma DeleteKeepsOrder(a: seq<string>, b: seq<string>, name: string)
    ensures RoomsAfterDelete(a + b, name) == RoomsAfterDelete(a, name) + RoomsAfterDelete(b, name)
  {
    FilterConcat(a, b, IsNot(name));
  }

  /** `addRoom(name)`. */
  method AddRoom(store: MockService, name: string)
    modifies store`settings
    ensures store.settings == old(store.settings).(rooms := RoomsAfterAdd(old(store.settings.rooms), name))
  {
    var rooms := store.settings.rooms;
    if name !in rooms {
      var _ := store.UpdateSettings(SettingsPatch(None, None, None, None, None, Some(rooms + [name])));
    }
  }

  /** `deleteRoom(name)`. */
  method DeleteRoom(store: MockService, name: string)
    modifies store`settings
    ensures store.settings == old(store.settings).(rooms := RoomsAfterDelete(old(store.settings.rooms), name))
  {
    var rooms := store.settings.rooms;
    var _ := store.UpdateSettings(SettingsPatch(None, None, None, None, None, Some(Filter(rooms, IsNot(name)))));
  }
}
