/**
 * The file diagnostic script: it reads every stored file record, splits them
 * into those without a usable room code and per-room groups of the rest, and
 * prints a report with an invalid-records section, one section per room and
 * a warning when no record has a usable room code. The console is the
 * returned sequence of printed lines.
 */
module Diagnose {
  import opened Text
  import opened Grouping
  import opened FileRooms

  /** `!room || room === '' || room === 'undefined' || room === 'null'`. */
  predicate Invalid(r: FileRecord) {
    match r.roomCode
    case Absent => true
    case Null => true
    case Code(c) => c == "" || c == "undefined" || c == "null"
  }

  predicate HasRoom(r: FileRecord) {
    !Invalid(r)
  }

  /** The group key of a record with a usable code. */
  function Room(r: FileRecord): string {
    if r.roomCode.Code? then r.roomCode.code else ""
  }

  function Same(r: FileRecord): FileRecord {
    r
  }

  function WithRoom(all: seq<FileRecord>): seq<FileRecord> {
    Filter(all, HasRoom)
  }

  function Groups(all: seq<FileRecord>): map<string, seq<FileRecord>> {
    GroupBy(WithRoom(all), Room, Same)
  }

  /** `Object.keys(byRoom)`, in the order the rooms were first met. */
  function Rooms(all: seq<FileRecord>): seq<string> {
    KeyOrder(WithRoom(all), Room)
  }

  function NoRoomCode(all: seq<FileRecord>): seq<FileRecord> {
    Filter(all, Invalid)
  }

  /** The records of one room, in database order. */
  function InGroup(k: string): FileRecord -> bool {
    (r: FileRecord) => HasRoom(r) && Room(r) == k
  }

  /** Grouping the valid records by room selects, for each room, its records in database order. */
  lemma {:induction false} GroupIsSubsequence(all: seq<FileRecord>, k: string)
    ensures Select(WithRoom(all), Room, k, Same) == Filter(all, InGroup(k))
    decreases |all|
  {
    if all != [] {
      var n := |all| - 1;
      GroupIsSubsequence(all[..n], k);
      var v := WithRoom(all[..n]);
      assert Filter(all, InGroup(k)) == Filter(all[..n], InGroup(k)) + (if InGroup(k)(all[n]) then [all[n]] else []);
      if HasRoom(all[n]) {
        var w := v + [all[n]];
        assert WithRoom(all) == w;
        assert w[..|w| - 1] == v && w[|w| - 1] == all[n];
        assert Select(w, Room, k, Same) == Select(v, Room, k, Same) + (if Room(all[n]) == k then [all[n]] else []);
      } else {
        assert WithRoom(all) == v;
      }
    }
  }

  /** Each record is in the invalid list exactly when its code is unusable. */
  lemma InvalidListExact(all: seq<FileRecord>, x: FileRecord)
    ensures x in NoRoomCode(all) <==> x in all && Invalid(x)
  {
    FilterMembership(all, Invalid, x);
  }

  /** Only rooms of valid records get a group, and a group holds its room's records in database order. */
  lemma GroupsExact(all: seq<FileRecord>, k: string)
    ensures k in Groups(all) <==> exists y :: y in all && HasRoom(y) && Room(y) == k
    ensures k in Groups(all) ==> Groups(all)[k] == Filter(all, InGroup(k))
  {
    var v := WithRoom(all);
    GroupIsSelection(v, Room, Same, k);
    GroupIsSubsequence(all, k);
    if k in Groups(all) {
      var i :| 0 <= i < |v| && Room(v[i]) == k;
      assert v[i] in v;
      FilterMembership(all, HasRoom, v[i]);
    }
    if y :| y in all && HasRoom(y) && Room(y) == k {
      FilterMembership(all, HasRoom, y);
      var i :| 0 <= i < |v| && v[i] == y;
    }
  }

  /**
   * A group holds exactly the valid records of its room, and every valid
   * record is in the group of its own room; with InvalidListExact, a record is
   * in exactly one of the invalid list and the groups.
   */
  lemma GroupMembers(all: seq<FileRecord>, x: FileRecord, k: string)
    ensures k in Groups(all) ==> (x in Groups(all)[k] <==> x in all && HasRoom(x) && Room(x) == k)
    ensures x in all && HasRoom(x) ==> Room(x) in Groups(all) && x in Groups(all)[Room(x)]
  {
    GroupsExact(all, k);
    GroupsExact(all, Room(x));
    FilterMembership(all, InGroup(k), x);
    FilterMembership(all, InGroup(Room(x)), x);
  }

  /** The group sizes and the invalid count add up to the number of records. */
  lemma CountsAddUp(all: seq<FileRecord>)
    ensures SumSizes(Groups(all), Rooms(all)) + |NoRoomCode(all)| == |all|
  {
    GroupSizes(WithRoom(all), Room, Same);
    FilterSplit(all, HasRoom, Invalid);
  }

  /** There are no rooms exactly when no record has a usable code. */
  lemma NoRoomsIff(all: seq<FileRecord>)
    ensures Rooms(all) == [] <==> forall x :: x in all ==> Invalid(x)
  {
    var v := WithRoom(all);
    if v != [] {
      GroupIsSelection(v, Room, Same, Room(v[0]));
      assert v[0] in v;
      FilterMembership(all, HasRoom, v[0]);
    }
    forall x | x in all && HasRoom(x) ensures Rooms(all) != [] {
      FilterMembership(all, HasRoom, x);
      var i :| 0 <= i < |v| && v[i] == x;
      GroupIsSelection(v, Room, Same, Room(x));
    }
  }

  // ---------------------------------------------------------------- the partition loop

  /** Visiting one more record extends the visited prefix's usable records by it, or not at all. */
  lemma WithRoomStep(all: seq<FileRecord>, i: nat)
    requires i < |all|
    ensures WithRoom(all[..i + 1]) == WithRoom(all[..i]) + (if HasRoom(all[i]) then [all[i]] else [])
    ensures NoRoomCode(all[..i + 1]) == NoRoomCode(all[..i]) + (if Invalid(all[i]) then [all[i]] else [])
  {
    assert all[..i + 1][..i] == all[..i];
  }

  /** Grouping one more record: it joins its room's group, creating it and its key if new. */
  lemma GroupStep(v: seq<FileRecord>, x: FileRecord)
    ensures var g, o := GroupBy(v, Room, Same), KeyOrder(v, Room);
      (Room(x) in g <==> Room(x) in o)
      && GroupBy(v + [x], Room, Same) == g[Room(x) := (if Room(x) in g then g[Room(x)] else []) + [x]]
      && KeyOrder(v + [x], Room) == (if Room(x) in o then o else o + [Room(x)])
  {
    var w := v + [x];
    assert w[..|w| - 1] == v && w[|w| - 1] == x;
    GroupIsSelection(v, Room, Same, Room(x));
  }

  /** `if (!byRoom[room]) byRoom[room] = []; byRoom[room].push(file)`, with the key order kept alongside. */
  method Push(byRoom: map<string, seq<FileRecord>>, rooms: seq<string>, file: FileRecord)
    returns (byRoom': map<string, seq<FileRecord>>, rooms': seq<string>)
    requires Room(file) in byRoom <==> Room(file) in rooms
    ensures byRoom' == byRoom[Room(file) := (if Room(file) in byRoom then byRoom[Room(file)] else []) + [file]]
    ensures rooms' == if Room(file) in rooms then rooms else rooms + [Room(file)]
  {
    var room := Room(file);
    byRoom', rooms' := byRoom, rooms;
    if room !in byRoom' {
      byRoom' := byRoom'[room := []];
      rooms' := rooms' + [room];
    }
    byRoom' := byRoom'[room := byRoom'[room] + [file]];
  }

  /** The `forEach` that pushes each record into `noRoomCode` or its room's group. */
  method Partition(all: seq<FileRecord>)
    returns (byRoom: map<string, seq<FileRecord>>, rooms: seq<string>, noRoomCode: seq<FileRecord>)
    ensures byRoom == Groups(all) && rooms == Rooms(all) && noRoomCode == NoRoomCode(all)
  {
    byRoom, rooms, noRoomCode := map[], [], [];
    for i := 0 to |all|
      invariant byRoom == Groups(all[..i]) && rooms == Rooms(all[..i])
      invariant noRoomCode == NoRoomCode(all[..i])
    {
      WithRoomStep(all, i);
      var file := all[i];
      if Invalid(file) {
        assert WithRoom(all[..i + 1]) == WithRoom(all[..i]) + [];
        assert WithRoom(all[..i]) + [] == WithRoom(all[..i]);
        noRoomCode := noRoomCode + [file];
      } else {
        GroupStep(WithRoom(all[..i]), file);
        byRoom, rooms := Push(byRoom, rooms, file);
      }
    }
    assert all[..|all|] == all;
  }

  // ---------------------------------------------------------------- the report

  /** How a template literal shows the stored code. */
  function Shown(f: RoomField): string {
    match f
    case Absent => "undefined"
    case Null => "null"
    case Code(c) => c
  }

  function InvalidLine(r: FileRecord): string {
    "   - " + r.originalName + " (roomCode: \"" + Shown(r.roomCode) + "\")"
  }

  function InvalidLines(rs: seq<FileRecord>): seq<string>
    decreases |rs|
  {
    if rs == [] then [] else InvalidLines(rs[..|rs| - 1]) + [InvalidLine(rs[|rs| - 1])]
  }

  const InvalidHeadingText := "❌ FILES WITHOUT VALID ROOM CODE: "

  /** The invalid-records section: a heading with the count, one line per record, a blank line. */
  function InvalidSection(noRoomCode: seq<FileRecord>): seq<string> {
    if |noRoomCode| > 0 then
      [InvalidHeadingText + NatToString(|noRoomCode|)] + InvalidLines(noRoomCode) + [""]
    else []
  }

  function NameLines(rs: seq<FileRecord>): seq<string>
    decreases |rs|
  {
    if rs == [] then [] else NameLines(rs[..|rs| - 1]) + ["   - " + rs[|rs| - 1].originalName]
  }

  function RoomBlock(room: string, files: seq<FileRecord>): seq<string> {
    ["\n📁 Room: " + room + " (" + NatToString(|files|) + " files)"] + NameLines(files)
  }

  function RoomLines(rooms: seq<string>, byRoom: map<string, seq<FileRecord>>): seq<string>
    decreases |rooms|
  {
    if rooms == [] then []
    else
      var room := rooms[|rooms| - 1];
      RoomLines(rooms[..|rooms| - 1], byRoom) + RoomBlock(room, if room in byRoom then byRoom[room] else [])
  }

  const WarningLines := [
    "\n⚠️  WARNING: All files have invalid room codes!",
    "This explains why the same files appear in all rooms.",
    "\nRECOMMENDATION: Delete these invalid files and re-upload them with proper room codes."]

  function Warning(rooms: seq<string>, noRoomCode: seq<FileRecord>): seq<string> {
    if |rooms| == 0 && |noRoomCode| > 0 then WarningLines else []
  }

  function TotalLine(n: nat): string {
    "Total files in database: " + NatToString(n) + "\n"
  }

  /** Everything the script prints after connecting. */
  function Report(all: seq<FileRecord>): seq<string> {
    [TotalLine(|all|)] + InvalidSection(NoRoomCode(all)) + ["FILES BY ROOM CODE:"]
    + RoomLines(Rooms(all), Groups(all)) + Warning(Rooms(all), NoRoomCode(all))
  }

  /**
   * The invalid section appears exactly when some record lacks a usable code,
   * and it lists one line per such record; the warning appears exactly when
   * there is at least one record and none has a usable code.
   */
  lemma ReportSections(all: seq<FileRecord>)
    ensures InvalidSection(NoRoomCode(all)) != [] <==> exists x :: x in all && Invalid(x)
    ensures |InvalidSection(NoRoomCode(all))| == (if NoRoomCode(all) == [] then 0 else |NoRoomCode(all)| + 2)
    ensures Warning(Rooms(all), NoRoomCode(all)) != [] <==> all != [] && forall x :: x in all ==> Invalid(x)
  {
    NoRoomsIff(all);
    InvalidLinesLength(NoRoomCode(all));
    var nr := NoRoomCode(all);
    if nr != [] {
      assert nr[0] in nr;
      FilterMembership(all, Invalid, nr[0]);
    }
    forall x | x in all && Invalid(x) ensures nr != [] {
      FilterMembership(all, Invalid, x);
    }
    if all != [] && forall x :: x in all ==> Invalid(x) {
      assert all[0] in all;
    }
  }

  lemma {:induction false} InvalidLinesLength(rs: seq<FileRecord>)
    ensures |InvalidLines(rs)| == |rs|
    decreases |rs|
  {
    if rs != [] {
      InvalidLinesLength(rs[..|rs| - 1]);
    }
  }

  /** Prints each invalid record. */
  method PrintInvalid(out0: seq<string>, rs: seq<FileRecord>) returns (out: seq<string>)
    ensures out == out0 + InvalidLines(rs)
  {
    out := out0;
    for i := 0 to |rs|
      invariant out == out0 + InvalidLines(rs[..i])
    {
      assert rs[..i + 1][..i] == rs[..i];
      ConcatAssoc(out0, InvalidLines(rs[..i]), [InvalidLine(rs[i])]);
      out := out + [InvalidLine(rs[i])];
    }
    assert rs[..|rs|] == rs;
  }

  /** Prints each file name of a room. */
  method PrintNames(out0: seq<string>, rs: seq<FileRecord>) returns (out: seq<string>)
    ensures out == out0 + NameLines(rs)
  {
    out := out0;
    for i := 0 to |rs|
      invariant out == out0 + NameLines(rs[..i])
    {
      assert rs[..i + 1][..i] == rs[..i];
      ConcatAssoc(out0, NameLines(rs[..i]), ["   - " + rs[i].originalName]);
      out := out + ["   - " + rs[i].originalName];
    }
    assert rs[..|rs|] == rs;
  }

  /** Prints one block per room, in key order. */
  method PrintRooms(out0: seq<string>, rooms: seq<string>, byRoom: map<string, seq<FileRecord>>)
    returns (out: seq<string>)
    requires forall k :: k in rooms ==> k in byRoom
    ensures out == out0 + RoomLines(rooms, byRoom)
  {
    out := out0;
    for i := 0 to |rooms|
      invariant out == out0 + RoomLines(rooms[..i], byRoom)
    {
      assert rooms[..i + 1][..i] == rooms[..i];
      var room := rooms[i];
      var files := byRoom[room];
      var heading := "\n📁 Room: " + room + " (" + NatToString(|files|) + " files)";
      ghost var before := out;
      out := out + [heading];
      out := PrintNames(out, files);
      ConcatAssoc(before, [heading], NameLines(files));
      ConcatAssoc(out0, RoomLines(rooms[..i], byRoom), RoomBlock(room, files));
    }
    assert rooms[..|rooms|] == rooms;
  }

  /** The whole run of the script over the stored records. */
  method DiagnoseFiles(all: seq<FileRecord>) returns (out: seq<string>)
    ensures out == Report(all)
  {
    var byRoom, rooms, noRoomCode := Partition(all);
    out := [TotalLine(|all|)];
    out := PrintInvalidSection(out, noRoomCode);
    out := out + ["FILES BY ROOM CODE:"];
    forall k | k in rooms ensures k in byRoom {
      GroupIsSelection(WithRoom(all), Room, Same, k);
    }
    ghost var mid := out;
    out := PrintRooms(out, rooms, byRoom);
    if |rooms| == 0 && |noRoomCode| > 0 {
      out := out + WarningLines;
    }
    assert out == mid + RoomLines(rooms, byRoom) + Warning(rooms, noRoomCode);
  }

  /** The invalid-record section, printed only when there is such a record. */
  method PrintInvalidSection(out0: seq<string>, noRoomCode: seq<FileRecord>) returns (out: seq<string>)
    ensures out == out0 + InvalidSection(noRoomCode)
  {
    out := out0;
    if |noRoomCode| > 0 {
      var heading := InvalidHeadingText + NatToString(|noRoomCode|);
      out := PrintInvalid(out0 + [heading], noRoomCode);
      out := out + [""];
      ConcatAssoc(out0, [heading], InvalidLines(noRoomCode));
      ConcatAssoc(out0, [heading] + InvalidLines(noRoomCode), [""]);
    } else {
      assert out0 + [] == out0;
    }
  }
}
