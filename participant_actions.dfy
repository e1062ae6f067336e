/** The participant server actions that add logic of their own on top of
    the store: marking attendance from a scanner file, and importing rows
    from a spreadsheet. */
module ParticipantActions {
  import opened Wrappers
  import opened Strings
  import opened Lists
  import opened MockStore

  // ---------------------------------------------------------------------
  // Scanner files

  /** The index of the first `c` in `s`, or `|s|` when there is none. */
  function IndexOf(s: string, c: char): (i: nat)
    ensures i <= |s|
    ensures i < |s| ==> s[i] == c
    ensures forall k :: 0 <= k < i ==> s[k] != c
  {
    if s == [] || s[0] == c then 0 else 1 + IndexOf(s[1..], c)
  }

  /** A line ended by `\r\n` loses its `\r` with the line break. */
  function DropCarriageReturn(line: string): (r: string)
    ensures r == line || (line == r + ['\r'])
  {
    if |line| > 0 && line[|line| - 1] == '\r' then line[..|line| - 1] else line
  }

  /** `text.split(/\r?\n/)`: the pieces between line breaks, a break being
      `\n` or `\r\n`; the last piece is whatever follows the last break. */
  function SplitLines(text: string): (lines: seq<string>)
    ensures |lines| >= 1
    ensures forall k :: 0 <= k < |lines| ==> '\n' !in lines[k]
    decreases |text|
  {
    var i := IndexOf(text, '\n');
    if i == |text| then [text]
    else [DropCarriageReturn(text[..i])] + SplitLines(text[i + 1..])
  }

  /** The lines joined back with `\n`. */
  function JoinLines(lines: seq<string>): string
    requires |lines| >= 1
  {
    if |lines| == 1 then lines[0] else lines[0] + "\n" + JoinLines(lines[1..])
  }

  /** A text with no carriage return splits into lines that join back into
      it. */
  lemma {:induction false} SplitJoinLines(text: string)
    requires '\r' !in text
    ensures JoinLines(SplitLines(text)) == text
    decreases |text|
  {
    var i := IndexOf(text, '\n');
    if i < |text| {
      var a, b := text[..i], text[i + 1..];
      assert text == a + "\n" + b;
      assert '\n' !in a by {
        forall k | 0 <= k < |a| ensures a[k] != '\n' {
          assert a[k] == text[k];
        }
      }
      assert '\r' !in b by {
        forall k | 0 <= k < |b| ensures b[k] != '\r' {
          assert b[k] == text[i + 1 + k];
        }
      }
      if |a| > 0 {
        assert a[|a| - 1] == text[|a| - 1];
      }
      SplitLinesAfterBreak(a, "\n", b);
      SplitJoinLines(b);
      var rest := SplitLines(b);
      assert ([a] + rest)[1..] == rest;
    }
  }

  function TrimAll(lines: seq<string>): (r: seq<string>)
    ensures |r| == |lines| && forall k :: 0 <= k < |r| ==> r[k] == Trim(lines[k])
  {
    seq(|lines|, k requires 0 <= k < |lines| => Trim(lines[k]))
  }

  lemma TrimAllConcat(a: seq<string>, b: seq<string>)
    ensures TrimAll(a + b) == TrimAll(a) + TrimAll(b)
  {
    var l, r := TrimAll(a + b), TrimAll(a) + TrimAll(b);
    assert |l| == |r|;
    forall k | 0 <= k < |l| ensures l[k] == r[k] {
      if k < |a| {
        assert (a + b)[k] == a[k];
      } else {
        assert (a + b)[k] == b[k - |a|];
      }
    }
  }

  function NonEmpty(): string -> bool {
    s => |s| > 0
  }

  /** The codes in a scanner file: its lines, trimmed, blank ones dropped. */
  function ScannerCodes(text: string): (codes: seq<string>)
    ensures forall c :: c in codes ==> |c| > 0 && c == Trim(c) && c in TrimAll(SplitLines(text))
    ensures forall k :: 0 <= k < |SplitLines(text)| && |Trim(SplitLines(text)[k])| > 0 ==>
      Trim(SplitLines(text)[k]) in codes
  {
    var codes := Filter(TrimAll(SplitLines(text)), NonEmpty());
    assert forall c :: c in codes ==> c == Trim(c) by {
      forall c | c in codes ensures c == Trim(c) {
        var k :| 0 <= k < |SplitLines(text)| && c == Trim(SplitLines(text)[k]);
        TrimIdempotent(SplitLines(text)[k]);
      }
    }
    assert forall k :: 0 <= k < |SplitLines(text)| ==> TrimAll(SplitLines(text))[k] in TrimAll(SplitLines(text));
    codes
  }

  /** The pieces of `a`, a text without a line break, followed by a break
      and `b`. With a bare `\n`, `a` must not end in a carriage return, which
      would belong to the break. */
  lemma SplitLinesAfterBreak(a: string, brk: string, b: string)
    requires '\n' !in a
    requires brk == "\n" || brk == "\r\n"
    requires brk == "\n" ==> |a| == 0 || a[|a| - 1] != '\r'
    ensures SplitLines(a + brk + b) == [a] + SplitLines(b)
  {
    var text := a + brk + b;
    var i := IndexOf(text, '\n');
    var head := a + brk[..|brk| - 1];
    assert text[|head|] == '\n';
    forall k | 0 <= k < |head| ensures text[k] != '\n' {
      if k < |a| {
        assert text[k] == a[k];
      } else {
        assert text[k] == '\r';
      }
    }
    assert i == |head|;
    assert text[..i] == head;
    assert text[i + 1..] == b;
    assert DropCarriageReturn(head) == a;
    assert SplitLines(text) == [DropCarriageReturn(text[..i])] + SplitLines(text[i + 1..]);
  }

  /** A text without a line break is a single piece. */
  lemma SplitLinesSingle(line: string)
    requires '\n' !in line
    ensures SplitLines(line) == [line]
  {
  }

  /** A one-line file gives its trimmed line, or nothing when it is blank. */
  lemma ScannerCodesSingleLine(line: string)
    requires '\n' !in line
    ensures ScannerCodes(line) == if Trim(line) == "" then [] else [Trim(line)]
  {
    SplitLinesSingle(line);
    assert TrimAll([line]) == [Trim(line)];
    FilterSingleton(Trim(line), NonEmpty());
  }

  /** The codes of a file are those of its first line followed by those of
      the rest, line break `\n` or `\r\n`: nothing is merged, dropped twice
      or reordered, so `processed` counts every non-blank line. */
  lemma ScannerCodesAfterBreak(a: string, brk: string, b: string)
    requires '\n' !in a
    requires brk == "\n" || brk == "\r\n"
    requires brk == "\n" ==> |a| == 0 || a[|a| - 1] != '\r'
    ensures ScannerCodes(a + brk + b) == ScannerCodes(a) + ScannerCodes(b)
  {
    SplitLinesAfterBreak(a, brk, b);
    SplitLinesSingle(a);
    TrimAllConcat([a], SplitLines(b));
    FilterConcat(TrimAll([a]), TrimAll(SplitLines(b)), NonEmpty());
  }

  /** A code on two lines is read twice. */
  lemma RepeatedLineReadTwice(code: string)
    requires '\n' !in code && code != "" && Trim(code) == code
    ensures ScannerCodes(code + "\n" + code) == [code, code]
  {
    assert code[|code| - 1] != '\r';
    ScannerCodesAfterBreak(code, "\n", code);
    ScannerCodesSingleLine(code);
  }

  // ---------------------------------------------------------------------
  // Marking attendance

  /** Whether `updateAttendance(code, true)` finds a participant. */
  predicate Known(ps: seq<Participant>, code: string) {
    FindIndex(ps, CodeIs(code)) >= 0
  }

  function KnownIn(ps: seq<Participant>): string -> bool {
    c => Known(ps, c)
  }

  /** The participants and the `updatedCount` after marking each code in
      turn. */
  function AttendAll(ps: seq<Participant>, codes: seq<string>): (r: (seq<Participant>, nat))
    ensures r.1 <= |codes|
    ensures |r.0| == |ps|
    ensures forall k :: 0 <= k < |ps| ==> r.0[k].id == ps[k].id && r.0[k].fields.code == ps[k].fields.code
  {
    if codes == [] then (ps, 0)
    else
      var (before, n) := AttendAll(ps, codes[..|codes| - 1]);
      var last := codes[|codes| - 1];
      (WithAttendance(before, last, true), n + if Known(before, last) then 1 else 0)
  }

  /** Marking one more code. */
  lemma AttendAllStep(ps: seq<Participant>, codes: seq<string>, k: nat)
    requires k < |codes|
    ensures AttendAll(ps, codes[..k + 1]).0 == WithAttendance(AttendAll(ps, codes[..k]).0, codes[k], true)
    ensures AttendAll(ps, codes[..k + 1]).1 ==
      AttendAll(ps, codes[..k]).1 + if Known(AttendAll(ps, codes[..k]).0, codes[k]) then 1 else 0
  {
    assert codes[..k + 1][..k] == codes[..k];
  }

  /** Two lists with the same codes, position by position, know the same
      codes. */
  lemma SameCodesSameKnown(ps: seq<Participant>, qs: seq<Participant>, code: string)
    requires |ps| == |qs| && forall k :: 0 <= k < |ps| ==> ps[k].fields.code == qs[k].fields.code
    ensures Known(ps, code) <==> Known(qs, code)
  {
    var i, j := FindIndex(ps, CodeIs(code)), FindIndex(qs, CodeIs(code));
    if i >= 0 {
      assert CodeIs(code)(qs[i]);
    }
    if j >= 0 {
      assert CodeIs(code)(ps[j]);
    }
  }

  /** Two lists with the same codes, position by position, find a code at
      the same index. */
  lemma SameCodesSameIndex(ps: seq<Participant>, qs: seq<Participant>, code: string)
    requires |ps| == |qs| && forall k :: 0 <= k < |ps| ==> ps[k].fields.code == qs[k].fields.code
    ensures FindIndex(ps, CodeIs(code)) == FindIndex(qs, CodeIs(code))
  {
    var i, j := FindIndex(ps, CodeIs(code)), FindIndex(qs, CodeIs(code));
    if i >= 0 {
      assert CodeIs(code)(qs[i]);
    }
    if j >= 0 {
      assert CodeIs(code)(ps[j]);
    }
  }

  /** What a scanner file does to each participant: the one a code is
      found at, the first carrying it exactly, ends up marked attended with
      nothing else changed; a participant no code is found at is left as
      it was, even when it carries a code that an earlier participant also
      carries. */
  lemma {:induction false} AttendAllMarks(ps: seq<Participant>, codes: seq<string>, k: nat)
    requires k < |ps|
    ensures (exists c :: c in codes && k == FindIndex(ps, CodeIs(c))) ==>
      AttendAll(ps, codes).0[k] == Marked(ps[k], true)
    ensures (forall c :: c in codes ==> k != FindIndex(ps, CodeIs(c))) ==>
      AttendAll(ps, codes).0[k] == ps[k]
  {
    if codes != [] {
      var init, last := codes[..|codes| - 1], codes[|codes| - 1];
      assert codes == init + [last];
      AttendAllMarks(ps, init, k);
      var before := AttendAll(ps, init).0;
      SameCodesSameIndex(before, ps, last);
      assert AttendAll(ps, codes).0 == WithAttendance(before, last, true);
      assert before[k] == ps[k] || before[k] == Marked(ps[k], true);
      if k != FindIndex(ps, CodeIs(last)) {
        assert AttendAll(ps, codes).0[k] == before[k];
        if exists c :: c in codes && k == FindIndex(ps, CodeIs(c)) {
          var c :| c in codes && k == FindIndex(ps, CodeIs(c));
          assert c in init;
        }
      }
    }
  }

  /** `updated` counts the codes, repeats included, that some participant
      carries; the marks made along the way change no code. */
  lemma {:induction false} UpdatedCountsKnownCodes(ps: seq<Participant>, codes: seq<string>)
    ensures AttendAll(ps, codes).1 == |Filter(codes, KnownIn(ps))|
  {
    if codes != [] {
      var init, last := codes[..|codes| - 1], codes[|codes| - 1];
      UpdatedCountsKnownCodes(ps, init);
      SameCodesSameKnown(AttendAll(ps, init).0, ps, last);
      assert codes == init + [last];
      FilterConcat(init, [last], KnownIn(ps));
      FilterSingleton(last, KnownIn(ps));
    }
  }

  /** A known code read twice is counted twice. */
  lemma RepeatedCodeCountsTwice(ps: seq<Participant>, code: string)
    requires Known(ps, code)
    ensures AttendAll(ps, [code, code]).1 == 2
  {
    UpdatedCountsKnownCodes(ps, [code, code]);
    assert Filter([code, code], KnownIn(ps)) == [code] + Filter([code], KnownIn(ps));
    FilterSingleton(code, KnownIn(ps));
  }

  /** A file whose codes nobody carries changes nothing and updates none. */
  lemma {:induction false} UnknownCodesChangeNothing(ps: seq<Participant>, codes: seq<string>)
    requires forall k :: 0 <= k < |codes| ==> !Known(ps, codes[k])
    ensures AttendAll(ps, codes) == (ps, 0)
  {
    if codes != [] {
      UnknownCodesChangeNothing(ps, codes[..|codes| - 1]);
    }
  }

  datatype ScanResult =
    | ScanFailed(error: string)
    | Scanned(processed: nat, updated: nat)

  const FILE_AND_PROJECT_REQUIRED: string := "File and Project ID are required"

  /** `processScannerData`'s loop: `updateAttendance(code, true)` for each
      code in turn, counting the codes a participant was found for. */
  method MarkAttendance(store: MockService, codes: seq<string>) returns (updated: nat)
    modifies store`participants
    ensures store.participants == AttendAll(old(store.participants), codes).0
    ensures updated == AttendAll(old(store.participants), codes).1
  {
    ghost var ps0 := store.participants;
    updated := 0;
    var k := 0;
    while k < |codes|
      invariant k <= |codes|
      invariant store.participants == AttendAll(ps0, codes[..k]).0
      invariant updated == AttendAll(ps0, codes[..k]).1
    {
      ghost var before := store.participants;
      AttendAllStep(ps0, codes, k);
      var participant := store.UpdateAttendance(codes[k], true);
      assert store.participants == WithAttendance(before, codes[k], true);
      assert participant.Some? <==> Known(before, codes[k]);
      if participant.Some? {
        updated := updated + 1;
      }
      k := k + 1;
    }
    assert codes[..k] == codes;
  }

  /** `processScannerData(formData)`: `file` is the uploaded file's text
      and `projectId` the form's field, each `None` when it was not sent.
      Every code is marked in the whole store, whatever the project. */
  method ProcessScannerData(store: MockService, file: Option<string>, projectId: Option<string>)
    returns (r: ScanResult)
    modifies store`participants
    ensures (file.None? || projectId.None? || projectId == Some("")) ==>
      r == ScanFailed(FILE_AND_PROJECT_REQUIRED) && store.participants == old(store.participants)
    ensures (file.Some? && projectId.Some? && projectId != Some("")) ==>
      var codes := ScannerCodes(file.value);
      r == Scanned(|codes|, AttendAll(old(store.participants), codes).1)
      && store.participants == AttendAll(old(store.participants), codes).0
  {
    if file.None? || projectId.None? || projectId == Some("") {
      return ScanFailed(FILE_AND_PROJECT_REQUIRED);
    }
    var codes := ScannerCodes(file.value);
    var updatedCount := MarkAttendance(store, codes);
    r := Scanned(|codes|, updatedCount);
  }

  // ---------------------------------------------------------------------
  // Spreadsheet import

  /** A spreadsheet row; its type may be missing. */
  datatype ImportRow = ImportRow(
    projectId: string, kind: Option<string>, code: Option<string>,
    firstName: Option<string>, lastName: Option<string>, email: Option<string>,
    mobile: Option<string>, company: Option<string>, position: Option<string>,
    room: Option<string>)

  const DEFAULT_KIND: string := "INDIVIDUAL"

  /** `importParticipants`' mapping of one row: a missing or empty type
      becomes `INDIVIDUAL`, and attendance is not carried over. */
  function FormatRow(row: ImportRow): (p: ParticipantFields)
    ensures p.kind == (if row.kind.None? || row.kind == Some("") then DEFAULT_KIND else row.kind.value)
    ensures p.projectId == row.projectId && p.code == row.code && p.room == row.room && p.attended.None?
  {
    ParticipantFields(row.projectId, OrDefault(row.kind, DEFAULT_KIND), row.code, row.firstName,
      row.lastName, row.email, row.mobile, row.company, row.position, row.room, None)
  }

  function FormatRows(rows: seq<ImportRow>): (r: seq<ParticipantFields>)
    ensures |r| == |rows| && forall k :: 0 <= k < |r| ==> r[k] == FormatRow(rows[k])
  {
    seq(|rows|, k requires 0 <= k < |rows| => FormatRow(rows[k]))
  }

  /** `importParticipants(data)`: one new participant per row, in order;
      the count is the number of rows. */
  method ImportParticipants(store: MockService, rows: seq<ImportRow>, now: int) returns (count: nat)
    modifies store`participants, store`issuedIds
    ensures count == |rows|
    ensures store.participants == old(store.participants) + NewParticipants(FormatRows(rows), old(store.issuedIds), now)
  {
    count := store.CreateManyParticipants(FormatRows(rows), now);
  }

  /** Every imported participant has a non-empty type. */
  lemma ImportedKindsNonEmpty(rows: seq<ImportRow>, first: nat, now: int)
    ensures forall p :: p in NewParticipants(FormatRows(rows), first, now) ==> p.fields.kind != ""
  {
  }
}
