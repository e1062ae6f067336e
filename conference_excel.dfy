/** The conference spreadsheet: the row each conference is exported as,
    and the conference each imported row becomes. A row is its cells by
    column, a missing cell being `None`; reading and writing the file is
    not modelled. */
module ConferenceExcel {
  import opened Wrappers
  import opened Strings
  import opened MockStore

  /** One sheet row, by column: Topic, Date, StartTime, EndTime, Room,
      Capacity, Details, SpeakerInfo, IsPublic, ShowOnReg, AllowPreReg. */
  datatype SheetRow = SheetRow(
    topic: Option<string>, date: Option<string>, startTime: Option<string>, endTime: Option<string>,
    room: Option<string>, capacity: Option<string>, details: Option<string>,
    speakerInfo: Option<string>, isPublic: Option<string>, showOnReg: Option<string>,
    allowPreReg: Option<string>)

  const YES: string := "Yes"
  const NO: string := "No"

  function FlagCell(b: bool): (cell: string)
    ensures cell == YES || cell == NO
    ensures cell == YES <==> b
  {
    if b then YES else NO
  }

  /** An imported flag is set iff its cell is exactly `Yes`. */
  predicate FlagOf(cell: Option<string>) {
    cell == Some(YES)
  }

  /** The cell a capacity is written as. A number is written as itself,
      shown here as its decimal text; no capacity leaves the cell empty, and
      NaN, which `row.Capacity || '0'` treats as falsy on the way back, is
      an empty cell too. */
  function CapacityCell(capacity: Option<ParsedInt>): (cell: Option<string>)
    ensures cell.None? <==> capacity.None? || capacity.value.NaN?
    ensures capacity.Some? && capacity.value.Int? ==> cell == Some(IntToString(capacity.value.value))
  {
    match capacity
    case None => None
    case Some(NaN) => None
    case Some(Int(v)) => Some(IntToString(v))
  }

  /** The capacity a conference has after export and import: its number,
      or 0 when it had none or had NaN. */
  function ReimportedCapacity(capacity: Option<ParsedInt>): ParsedInt {
    if capacity.Some? && capacity.value.Int? then capacity.value else Int(0)
  }

  /** `handleExport`'s row for one conference; the date is written as its
      `yyyy-MM-dd` key. */
  function ExportRow(c: ConferenceFields): (row: SheetRow)
    ensures row.isPublic == Some(FlagCell(c.isPublic)) && row.showOnReg == Some(FlagCell(c.showOnReg))
    ensures row.allowPreReg == Some(FlagCell(c.allowPreReg))
    ensures row.topic == Some(c.topic) && row.date == Some(c.date)
    ensures row.startTime == Some(c.startTime) && row.endTime == Some(c.endTime) && row.room == c.room
    ensures row.details == c.detail && row.speakerInfo == c.speakerInfo
    ensures row.capacity.None? <==> c.capacity.None? || c.capacity.value.NaN?
    ensures c.capacity.Some? && c.capacity.value.Int? ==> row.capacity == Some(IntToString(c.capacity.value.value))
  {
    SheetRow(Some(c.topic), Some(c.date), Some(c.startTime), Some(c.endTime), c.room,
      CapacityCell(c.capacity), c.detail, c.speakerInfo,
      Some(FlagCell(c.isPublic)), Some(FlagCell(c.showOnReg)), Some(FlagCell(c.allowPreReg)))
  }

  function Export(cs: seq<Conference>): (rows: seq<SheetRow>)
    ensures |rows| == |cs| && forall k :: 0 <= k < |rows| ==> rows[k] == ExportRow(cs[k].fields)
  {
    seq(|cs|, k requires 0 <= k < |cs| => ExportRow(cs[k].fields))
  }

  /** `handleImport`'s payload for one row: every row joins the current
      project, and an empty cell takes its default (`today` for the date,
      `0` for the capacity, which is parsed with `parseInt` and no radix). */
  function ImportRow(row: SheetRow, projectId: string, today: string): (c: ConferenceFields)
    ensures c.projectId == projectId
    ensures c.topic == OrDefault(row.topic, "Untitled") && c.date == OrDefault(row.date, today)
    ensures c.startTime == OrDefault(row.startTime, "09:00") && c.endTime == OrDefault(row.endTime, "10:00")
    ensures c.room == Some(OrDefault(row.room, "")) && c.detail == Some(OrDefault(row.details, ""))
    ensures c.speakerInfo == Some(OrDefault(row.speakerInfo, "")) && c.photoUrl.None?
    ensures c.capacity == Some(ParseInt(OrDefault(row.capacity, "0"), 0))
    ensures c.isPublic == FlagOf(row.isPublic) && c.showOnReg == FlagOf(row.showOnReg)
    ensures c.allowPreReg == FlagOf(row.allowPreReg)
  {
    ConferenceFields(projectId, OrDefault(row.topic, "Untitled"), OrDefault(row.date, today),
      OrDefault(row.startTime, "09:00"), OrDefault(row.endTime, "10:00"),
      Some(OrDefault(row.room, "")), Some(ParseInt(OrDefault(row.capacity, "0"), 0)),
      Some(OrDefault(row.details, "")), Some(OrDefault(row.speakerInfo, "")), None,
      FlagOf(row.isPublic), FlagOf(row.showOnReg), FlagOf(row.allowPreReg))
  }

  /** One payload row per sheet row, in order. */
  function Import(rows: seq<SheetRow>, projectId: string, today: string): (cs: seq<ConferenceFields>)
    ensures |cs| == |rows|
    ensures forall k :: 0 <= k < |cs| ==> cs[k] == ImportRow(rows[k], projectId, today)
  {
    seq(|rows|, k requires 0 <= k < |rows| => ImportRow(rows[k], projectId, today))
  }

  // ---------------------------------------------------------------------
  // Properties

  /** Exporting a flag and importing it back gives the flag. */
  lemma FlagRoundTrip(b: bool)
    ensures FlagOf(Some(FlagCell(b))) == b
  {
  }

  /** Any cell other than `Yes`, `No` and lower-case `yes` included, reads
      as unset. */
  lemma OnlyYesIsSet(cell: Option<string>)
    requires cell != Some(YES)
    ensures !FlagOf(cell)
  {
  }

  /** An exported capacity reads back as a number: the number itself, or
      0 for a conference that had no capacity or NaN. */
  lemma CapacityRoundTrip(capacity: Option<ParsedInt>)
    ensures ParseInt(OrDefault(CapacityCell(capacity), "0"), 0) == ReimportedCapacity(capacity)
    ensures capacity.Some? && capacity.value.Int? ==>
      ParseInt(OrDefault(CapacityCell(capacity), "0"), 0) == capacity.value
  {
    match capacity
    case None =>
      ParseIntToString(0, 0);
      assert IntToString(0) == "0";
    case Some(NaN) =>
      ParseIntToString(0, 0);
      assert IntToString(0) == "0";
    case Some(Int(v)) =>
      ParseIntToString(v, 0);
      if v >= 0 {
        NatToStringValue(v);
      }
  }

  /** A conference exported and imported back into its own project keeps
      its topic, date, times, room and flags; a numeric capacity comes back
      as itself, and a missing or NaN one as 0. */
  lemma ExportImportRoundTrip(c: ConferenceFields, today: string)
    requires c.topic != "" && c.date != "" && c.startTime != "" && c.endTime != ""
    requires c.room.Some?
    ensures var d := ImportRow(ExportRow(c), c.projectId, today);
      d.projectId == c.projectId && d.topic == c.topic && d.date == c.date
      && d.startTime == c.startTime && d.endTime == c.endTime && d.room == c.room
      && d.capacity == Some(ReimportedCapacity(c.capacity))
      && d.isPublic == c.isPublic && d.showOnReg == c.showOnReg && d.allowPreReg == c.allowPreReg
  {
    CapacityRoundTrip(c.capacity);
  }

  /** An all-empty row becomes the default session. */
  lemma EmptyRowDefaults(projectId: string, today: string)
    ensures var c := ImportRow(SheetRow(None, None, None, None, None, None, None, None, None, None, None),
        projectId, today);
      c.topic == "Untitled" && c.date == today && c.startTime == "09:00" && c.endTime == "10:00"
      && c.room == Some("") && c.detail == Some("") && c.speakerInfo == Some("")
      && c.capacity == Some(Int(0)) && !c.isPublic && !c.showOnReg && !c.allowPreReg
  {
    ParseIntToString(0, 0);
    assert IntToString(0) == "0";
  }
}
