/**
 * The file-sharing routes of the backend: uploads tagged with a room code,
 * the room-filtered listing (newest first), owner-only deletion, the
 * room-existence check, the diagnostic grouping by room and the cleanup of
 * records that carry no room code. The database is the sequence of stored
 * documents in insertion order; a document has the fields of the File model.
 */
module FileRooms {
  import opened Wrappers
  import opened Text
  import opened Sorting
  import opened Grouping

  /** A stored `roomCode`: missing from the document, JSON null, or a string. */
  datatype RoomField = Absent | Null | Code(code: string)

  /** One stored document. `id` is the database's own identifier. */
  datatype FileRecord = FileRecord(
    id: nat, filename: string, originalName: string, mimetype: string, size: nat,
    path: string, uploadedBy: string, roomCode: RoomField, uploadedAt: int)

  /** What the multipart parser hands the upload route for the `file` field. */
  datatype Incoming = Incoming(filename: string, originalName: string, mimetype: string, size: nat, path: string)

  /** One entry of the diagnostic grouping. */
  datatype Listed = Listed(name: string, uploadedBy: string, date: int)

  datatype Payload =
    | Uploaded(file: FileRecord)
    | Files(files: seq<FileRecord>)
    | Removed
    | RoomStatus(roomExists: bool, fileCount: nat, roomCode: string)
    | Grouped(totalFiles: nat, rooms: seq<string>, filesByRoom: map<string, seq<Listed>>)
    | Cleaned(count: nat, deletedFiles: seq<string>)

  datatype Response = Ok(payload: Payload) | Failure(status: nat, error: string)

  const NoFile := "No file uploaded"
  const CodeRequired := "Valid room code is required"
  const UploadFailed := "Failed to upload file"
  const NotFound := "File not found"
  const NotOwner := "Not authorized to delete this file"
  const RoomRequired := "Room code is required"
  const NoRoom := "NO_ROOM"

  /** Identifiers are unique and no document is stored twice. */
  ghost predicate Valid(db: seq<FileRecord>) {
    NoDuplicates(db) && forall a, b :: a in db && b in db && a.id == b.id ==> a == b
  }

  predicate Fresh(db: seq<FileRecord>, id: nat) {
    forall r :: r in db ==> r.id != id
  }

  // ---------------------------------------------------------------- upload

  /** `roomCode?.trim().toUpperCase()`. */
  function Normalise(code: string): string {
    ToUpper(Trim(code))
  }

  /** The upload guard: non-empty and not one of the two spelled-out placeholders. */
  predicate Acceptable(code: string) {
    code != "" && code != "UNDEFINED" && code != "NULL"
  }

  /** A string marked `required` in the schema must be non-empty to be saved. */
  predicate Saveable(r: FileRecord) {
    r.filename != "" && r.originalName != "" && r.mimetype != "" && r.path != ""
    && r.uploadedBy != "" && r.roomCode.Code? && r.roomCode.code != ""
  }

  function NewRecord(f: Incoming, email: string, code: string, id: nat, now: int): FileRecord {
    FileRecord(id, f.filename, f.originalName, f.mimetype, f.size, f.path, email, Code(code), now)
  }

  /** POST /upload: the new state of the database and the reply. */
  function UploadFile(db: seq<FileRecord>, file: Option<Incoming>, roomCode: Option<string>,
                      email: string, id: nat, now: int): (seq<FileRecord>, Response)
  {
    if file.None? then (db, Failure(400, NoFile))
    else if roomCode.None? || !Acceptable(Normalise(roomCode.value)) then (db, Failure(400, CodeRequired))
    else
      var rec := NewRecord(file.value, email, Normalise(roomCode.value), id, now);
      if !Saveable(rec) then (db, Failure(500, UploadFailed))
      else (db + [rec], Ok(Uploaded(rec)))
  }

  /** A rejected upload stores nothing, and it is rejected exactly in these cases. */
  lemma UploadRejects(db: seq<FileRecord>, file: Option<Incoming>, roomCode: Option<string>,
                      email: string, id: nat, now: int)
    ensures var (db', r) := UploadFile(db, file, roomCode, email, id, now);
      (r.Failure? ==> db' == db)
      && (file.None? ==> r == Failure(400, NoFile))
      && (file.Some? && (roomCode.None? || !Acceptable(Normalise(roomCode.value))) ==> r == Failure(400, CodeRequired))
      && (r.Ok? <==>
            (file.Some? && roomCode.Some? && Acceptable(Normalise(roomCode.value)) && email != ""
             && file.value.filename != "" && file.value.originalName != ""
             && file.value.mimetype != "" && file.value.path != ""))
  {
  }

  /** Spellings of the placeholders in any case and with surrounding blanks are refused. */
  lemma PlaceholderRefused(db: seq<FileRecord>, f: Incoming, code: string, email: string, id: nat, now: int)
    requires Normalise(code) == "UNDEFINED" || Normalise(code) == "NULL"
    ensures UploadFile(db, Some(f), Some(code), email, id, now) == (db, Failure(400, CodeRequired))
  {
  }

  /** A stored record is appended last, belongs to the uploader and carries the normalised code. */
  lemma UploadStores(db: seq<FileRecord>, f: Incoming, code: string, email: string, id: nat, now: int)
    requires UploadFile(db, Some(f), Some(code), email, id, now).1.Ok?
    ensures var (db', r) := UploadFile(db, Some(f), Some(code), email, id, now);
      |db'| == |db| + 1 && db'[..|db|] == db && r == Ok(Uploaded(db'[|db|]))
      && db'[|db|].uploadedBy == email && db'[|db|].roomCode == Code(Normalise(code))
      && db'[|db|].id == id && db'[|db|].uploadedAt == now && db'[|db|].originalName == f.originalName
  {
    var db' := UploadFile(db, Some(f), Some(code), email, id, now).0;
    assert db'[..|db|] == db;
  }

  lemma UploadKeepsValid(db: seq<FileRecord>, file: Option<Incoming>, roomCode: Option<string>,
                         email: string, id: nat, now: int)
    requires Valid(db) && Fresh(db, id)
    ensures Valid(UploadFile(db, file, roomCode, email, id, now).0)
  {
    var db' := UploadFile(db, file, roomCode, email, id, now).0;
    if file.None? || roomCode.None? || !Acceptable(Normalise(roomCode.value)) {
      assert db' == db;
    } else {
      var rec := NewRecord(file.value, email, Normalise(roomCode.value), id, now);
      if Saveable(rec) {
        assert db' == db + [rec];
        AppendFreshValid(db, rec);
      } else {
        assert db' == db;
      }
    }
  }

  /** Appending a record whose identifier is not yet taken keeps the database valid. */
  lemma AppendFreshValid(db: seq<FileRecord>, rec: FileRecord)
    requires Valid(db) && Fresh(db, rec.id)
    ensures Valid(db + [rec])
  {
    var db' := db + [rec];
    assert rec !in db;
    forall i, j | 0 <= i < j < |db'| ensures db'[i] != db'[j] {
      if j < |db| {
        assert db[i] != db[j];
      } else {
        assert db[i] in db;
      }
    }
    forall a, b | a in db' && b in db' && a.id == b.id ensures a == b {
      assert a in db || a == rec;
      assert b in db || b == rec;
    }
  }

  // ---------------------------------------------------------------- list

  /** The list query: the code itself, with the redundant exclusions written next to it. */
  predicate QueryMatch(code: string, r: FileRecord) {
    r.roomCode == Code(code)
    && r.roomCode != Null && r.roomCode != Code("") && r.roomCode != Code("undefined") && r.roomCode != Code("null")
  }

  function Query(code: string): FileRecord -> bool {
    r => QueryMatch(code, r)
  }

  function InRoom(code: string): FileRecord -> bool {
    (r: FileRecord) => r.roomCode == Code(code)
  }

  function UploadedAt(r: FileRecord): int {
    r.uploadedAt
  }

  /** GET /list: blank or missing code gives nothing; otherwise the room's files, newest first. */
  function ListFiles(db: seq<FileRecord>, roomCode: Option<string>): seq<FileRecord> {
    if roomCode.None? || Trim(roomCode.value) == "" then []
    else SortDesc(Filter(db, Query(Normalise(roomCode.value))), UploadedAt)
  }

  /** A normalised code holds no lower-case letter, so it never spells `undefined` or `null`. */
  lemma NormalisedIsNotLowerPlaceholder(code: string)
    ensures Normalise(code) != "undefined" && Normalise(code) != "null"
  {
    var n := Normalise(code);
    if |n| > 0 {
      assert n[0] == UpperChar(Trim(code)[0]);
      assert n[0] != 'u' && n[0] != 'n';
    }
  }

  /** The extra exclusions in the list query never drop a record the room code matches. */
  lemma QueryIsRoomMatch(db: seq<FileRecord>, code: string)
    requires Trim(code) != ""
    ensures Filter(db, Query(Normalise(code))) == Filter(db, InRoom(Normalise(code)))
  {
    var c := Normalise(code);
    NormalisedIsNotLowerPlaceholder(code);
    assert |c| == |Trim(code)| > 0;
    FilterExt(db, Query(c), InRoom(c));
  }

  /**
   * Listing returns exactly the stored records of the normalised room, each as
   * often as it is stored, newest upload first; a blank code returns nothing.
   */
  lemma ListSelectsRoomNewestFirst(db: seq<FileRecord>, roomCode: Option<string>)
    ensures roomCode.None? || Trim(roomCode.value) == "" ==> ListFiles(db, roomCode) == []
    ensures roomCode.Some? && Trim(roomCode.value) != "" ==>
      var l := ListFiles(db, roomCode);
      var c := Normalise(roomCode.value);
      SortedDesc(l, UploadedAt)
      && multiset(l) == multiset(Filter(db, InRoom(c)))
      && (forall x :: x in l <==> x in db && x.roomCode == Code(c))
  {
    if roomCode.Some? && Trim(roomCode.value) != "" {
      var c := Normalise(roomCode.value);
      QueryIsRoomMatch(db, roomCode.value);
      var l := ListFiles(db, roomCode);
      forall x ensures x in l <==> x in db && x.roomCode == Code(c) {
        FilterMembership(db, InRoom(c), x);
        assert x in l <==> x in multiset(l);
      }
    }
  }

  /** A file uploaded under a code is listed under any spelling of the code that normalises alike. */
  lemma UploadedFileListed(db: seq<FileRecord>, f: Incoming, code: string, email: string, id: nat, now: int, query: string)
    requires UploadFile(db, Some(f), Some(code), email, id, now).1.Ok?
    requires Normalise(query) == Normalise(code)
    ensures var (db', r) := UploadFile(db, Some(f), Some(code), email, id, now);
      r.Ok? && r.payload.Uploaded? && r.payload.file in ListFiles(db', Some(query))
  {
    var (db', r) := UploadFile(db, Some(f), Some(code), email, id, now);
    UploadStores(db, f, code, email, id, now);
    assert |Normalise(query)| == |Trim(query)|;
    ListSelectsRoomNewestFirst(db', Some(query));
    assert r.payload.file == db'[|db|];
  }

  // ---------------------------------------------------------------- delete

  /** `findById`: the position of the first record with the identifier. */
  function FindIndex(db: seq<FileRecord>, id: nat): (r: Option<nat>)
    ensures r.Some? ==> r.value < |db| && db[r.value].id == id && Fresh(db[..r.value], id)
    ensures r.None? <==> Fresh(db, id)
  {
    if db == [] then None
    else if db[0].id == id then Some(0)
    else match FindIndex(db[1..], id)
      case None => None
      case Some(k) =>
        assert db[..k + 1] == [db[0]] + db[1..][..k];
        Some(k + 1)
  }

  /** `findByIdAndDelete`: removes the record found, if any. */
  function Remove(db: seq<FileRecord>, id: nat): (r: seq<FileRecord>)
    ensures Fresh(db, id) ==> r == db
    ensures !Fresh(db, id) ==> |r| == |db| - 1
  {
    match FindIndex(db, id)
    case None => db
    case Some(i) => db[..i] + db[i + 1..]
  }

  function NotId(id: nat): FileRecord -> bool {
    (r: FileRecord) => r.id != id
  }

  function Without(db: seq<FileRecord>, id: nat): seq<FileRecord> {
    Filter(db, NotId(id))
  }

  /** With unique identifiers, no record after a found one shares its id. */
  lemma FreshAfter(db: seq<FileRecord>, i: nat)
    requires Valid(db) && i < |db|
    ensures Fresh(db[i + 1..], db[i].id)
  {
    forall x | x in db[i + 1..] ensures x.id != db[i].id {
      var k :| i + 1 <= k < |db| && db[k] == x;
      assert db[k] in db && db[i] in db;
    }
  }

  /** Filtering on a fresh id keeps everything. */
  lemma WithoutFresh(db: seq<FileRecord>, id: nat)
    requires Fresh(db, id)
    ensures Without(db, id) == db
  {
    FilterAll(db, NotId(id));
  }

  /** Dropping the only record with an id is cutting it out at its position. */
  lemma CutIsWithout(db: seq<FileRecord>, i: nat)
    requires i < |db| && Fresh(db[..i], db[i].id) && Fresh(db[i + 1..], db[i].id)
    ensures db[..i] + db[i + 1..] == Without(db, db[i].id)
  {
    var p := NotId(db[i].id);
    var a, d, b := db[..i], [db[i]], db[i + 1..];
    assert db == (a + d) + b;
    WithoutFresh(a, db[i].id);
    WithoutFresh(b, db[i].id);
    FilterConcat(a + d, b, p);
    FilterConcat(a, d, p);
    assert Filter(d, p) == [] by {
      assert d[..0] == [];
    }
    calc {
      Without(db, db[i].id);
      Filter((a + d) + b, p);
      Filter(a + d, p) + Filter(b, p);
      (Filter(a, p) + Filter(d, p)) + Filter(b, p);
      (a + []) + b;
      { assert a + [] == a; }
      a + b;
    }
  }

  /** With unique identifiers, removing the record found is dropping every record with that id. */
  lemma RemoveIsWithout(db: seq<FileRecord>, id: nat)
    requires Valid(db)
    ensures Remove(db, id) == Without(db, id)
  {
    match FindIndex(db, id)
    case None =>
      WithoutFresh(db, id);
    case Some(i) =>
      FreshAfter(db, i);
      CutIsWithout(db, i);
  }

  lemma RemoveKeepsValid(db: seq<FileRecord>, id: nat)
    requires Valid(db)
    ensures Valid(Remove(db, id))
  {
    RemoveIsWithout(db, id);
    FilterNoDuplicates(db, NotId(id));
  }

  /** DELETE /delete/:id by the user with this email. */
  function DeleteFile(db: seq<FileRecord>, id: nat, email: string): (seq<FileRecord>, Response) {
    match FindIndex(db, id)
    case None => (db, Failure(404, NotFound))
    case Some(i) =>
      if db[i].uploadedBy != email then (db, Failure(403, NotOwner))
      else (Remove(db, id), Ok(Removed))
  }

  /**
   * Deleting an unknown id answers 404, a requester who did not upload the file
   * answers 403, and in both cases nothing changes; otherwise exactly that one
   * record is removed and every other record stays, in order.
   */
  lemma DeleteOutcomes(db: seq<FileRecord>, id: nat, email: string)
    requires Valid(db)
    ensures var (db', r) := DeleteFile(db, id, email);
      (Fresh(db, id) ==> db' == db && r == Failure(404, NotFound))
      && (!Fresh(db, id) ==>
            var f := db[FindIndex(db, id).value];
            f in db && f.id == id
            && (f.uploadedBy != email ==> db' == db && r == Failure(403, NotOwner))
            && (f.uploadedBy == email ==>
                  r == Ok(Removed) && |db'| == |db| - 1
                  && (forall x :: x in db' <==> x in db && x != f)
                  && db' == Filter(db, NotId(id))))
    ensures Valid(DeleteFile(db, id, email).0)
  {
    var (db', r) := DeleteFile(db, id, email);
    if !Fresh(db, id) {
      var f := db[FindIndex(db, id).value];
      if f.uploadedBy == email {
        RemoveIsWithout(db, id);
        RemoveKeepsValid(db, id);
        forall x ensures x in db' <==> x in db && x != f {
          FilterMembership(db, NotId(id), x);
        }
      }
    }
  }

  // ---------------------------------------------------------------- verify-room

  /** POST /verify-room: the count of records stored under exactly this code, not normalised. */
  function VerifyRoom(db: seq<FileRecord>, roomCode: Option<string>): Response {
    if roomCode.None? || roomCode.value == "" then Failure(400, RoomRequired)
    else
      var n := |Filter(db, InRoom(roomCode.value))|;
      Ok(RoomStatus(n > 0, n, roomCode.value))
  }

  /** A room exists exactly when some record carries its code verbatim. */
  lemma VerifyRoomCounts(db: seq<FileRecord>, code: string)
    requires code != ""
    ensures var r := VerifyRoom(db, Some(code));
      r.Ok? && r.payload.roomCode == code
      && r.payload.fileCount == |Filter(db, InRoom(code))|
      && (r.payload.roomExists <==> exists x :: x in db && x.roomCode == Code(code))
  {
    var hits := Filter(db, InRoom(code));
    if hits != [] {
      assert hits[0] in hits;
      FilterMembership(db, InRoom(code), hits[0]);
    }
    forall x | x in db && x.roomCode == Code(code) ensures hits != [] {
      FilterMembership(db, InRoom(code), x);
    }
  }

  /**
   * The upload route normalises the code and verify-room does not: a file
   * uploaded under a code that normalisation changes does not make that raw
   * code exist.
   */
  lemma RawCodeNotVerified(db: seq<FileRecord>, f: Incoming, code: string, email: string, id: nat, now: int)
    requires code != "" && Normalise(code) != code
    requires forall x :: x in db ==> x.roomCode != Code(code)
    ensures var db' := UploadFile(db, Some(f), Some(code), email, id, now).0;
      !VerifyRoom(db', Some(code)).payload.roomExists
  {
    var (db', r) := UploadFile(db, Some(f), Some(code), email, id, now);
    if r.Ok? {
      UploadStores(db, f, code, email, id, now);
      assert db' == db + [db'[|db|]];
    } else {
      UploadRejects(db, Some(f), Some(code), email, id, now);
    }
    assert forall x :: x in db' ==> x.roomCode != Code(code);
    VerifyRoomCounts(db', code);
  }

  // ---------------------------------------------------------------- debug grouping

  /** `file.roomCode || 'NO_ROOM'`. */
  function RoomKey(r: FileRecord): string {
    if r.roomCode.Code? && r.roomCode.code != "" then r.roomCode.code else NoRoom
  }

  function ListedView(r: FileRecord): Listed {
    Listed(r.originalName, r.uploadedBy, r.uploadedAt)
  }

  /** GET /debug/by-room. */
  function ByRoom(db: seq<FileRecord>): Response {
    Ok(Grouped(|db|, KeyOrder(db, RoomKey), GroupBy(db, RoomKey, ListedView)))
  }

  /**
   * The grouping counts every record, names each group once, and the group of
   * a key holds, in database order, exactly the records whose code (or
   * `NO_ROOM` for a missing one) is that key, so the group sizes add up to the total.
   */
  lemma ByRoomPartitions(db: seq<FileRecord>, key: string)
    ensures var g := ByRoom(db).payload;
      g.totalFiles == |db|
      && NoDuplicates(g.rooms)
      && g.filesByRoom.Keys == set k | k in g.rooms
      && (key in g.filesByRoom <==> exists i :: 0 <= i < |db| && RoomKey(db[i]) == key)
      && (key in g.filesByRoom ==> g.filesByRoom[key] == Select(db, RoomKey, key, ListedView))
      && SumSizes(g.filesByRoom, g.rooms) == |db|
  {
    GroupIsSelection(db, RoomKey, ListedView, key);
    GroupSizes(db, RoomKey, ListedView);
  }

  // ---------------------------------------------------------------- cleanup

  /** The cleanup query: null, empty or missing code. The strings `undefined` and `null` do not match. */
  predicate CleanupTarget(r: FileRecord) {
    r.roomCode == Null || r.roomCode == Code("") || r.roomCode == Absent
  }

  predicate Keeps(r: FileRecord) {
    !CleanupTarget(r)
  }

  function Names(fs: seq<FileRecord>): (r: seq<string>)
    ensures |r| == |fs| && forall i :: 0 <= i < |fs| ==> r[i] == fs[i].originalName
  {
    seq(|fs|, i requires 0 <= i < |fs| => fs[i].originalName)
  }

  /** DELETE /cleanup/invalid-rooms. */
  function Cleanup(db: seq<FileRecord>): (seq<FileRecord>, Response) {
    var targets := Filter(db, CleanupTarget);
    (Filter(db, Keeps), Ok(Cleaned(|targets|, Names(targets))))
  }

  /**
   * Cleanup removes exactly the records with a null, empty or missing code,
   * keeps the rest in order (the literal strings `undefined` and `null`
   * among them), and reports as many names as it removed.
   */
  lemma CleanupRemovesExactly(db: seq<FileRecord>, x: FileRecord)
    ensures var (db', r) := Cleanup(db);
      (x in db' <==> x in db && !CleanupTarget(x))
      && (x in db && (x.roomCode == Code("undefined") || x.roomCode == Code("null")) ==> x in db')
      && r.payload.count + |db'| == |db|
      && |r.payload.deletedFiles| == r.payload.count
      && (x in db && CleanupTarget(x) ==> x.originalName in r.payload.deletedFiles)
  {
    var (db', r) := Cleanup(db);
    FilterMembership(db, Keeps, x);
    FilterSplit(db, CleanupTarget, Keeps);
    if x in db && CleanupTarget(x) {
      var t := Filter(db, CleanupTarget);
      FilterMembership(db, CleanupTarget, x);
      var i :| 0 <= i < |t| && t[i] == x;
      assert r.payload.deletedFiles[i] == x.originalName;
    }
  }

  /** The identifiers of the records in fs. */
  function Ids(fs: seq<FileRecord>): (r: set<nat>)
    ensures forall x :: x in fs ==> x.id in r
    ensures forall id :: id in r ==> exists x :: x in fs && x.id == id
    decreases |fs|
  {
    if fs == [] then {} else Ids(fs[..|fs| - 1]) + {fs[|fs| - 1].id}
  }

  function NotIn(done: set<nat>): FileRecord -> bool {
    (r: FileRecord) => r.id !in done
  }

  /** Removing one more identifier from what is left. */
  lemma WithoutStep(db: seq<FileRecord>, done: set<nat>, id: nat)
    ensures Without(Filter(db, NotIn(done)), id) == Filter(db, NotIn(done + {id}))
  {
    FilterFilter(db, NotIn(done), NotId(id), NotIn(done + {id}));
  }

  /** One more removal in the loop of `findByIdAndDelete` calls. */
  lemma RemoveStep(db: seq<FileRecord>, done: set<nat>, id: nat, current: seq<FileRecord>)
    requires current == Filter(db, NotIn(done)) && Valid(current)
    ensures Remove(current, id) == Filter(db, NotIn(done + {id})) && Valid(Remove(current, id))
  {
    WithoutStep(db, done, id);
    RemoveIsWithout(current, id);
    RemoveKeepsValid(current, id);
  }

  lemma IdsSnoc(fs: seq<FileRecord>, i: nat)
    requires i < |fs|
    ensures Ids(fs[..i + 1]) == Ids(fs[..i]) + {fs[i].id}
  {
    assert fs[..i + 1][..i] == fs[..i];
  }

  lemma CleanupKeepsValid(db: seq<FileRecord>)
    requires Valid(db)
    ensures Valid(Cleanup(db).0)
  {
    FilterNoDuplicates(db, Keeps);
    forall x | x in Filter(db, Keeps) ensures x in db {
      FilterMembership(db, Keeps, x);
    }
  }

  // ---------------------------------------------------------------- the store

  /** The database collection, updated in place by the routes. */
  class FileStore {
    var records: seq<FileRecord>

    constructor ()
      ensures records == []
    {
      records := [];
    }

    method Upload(file: Option<Incoming>, roomCode: Option<string>, email: string, id: nat, now: int)
      returns (r: Response)
      requires Valid(records) && Fresh(records, id)
      modifies this
      ensures (records, r) == UploadFile(old(records), file, roomCode, email, id, now)
      ensures Valid(records)
    {
      UploadKeepsValid(records, file, roomCode, email, id, now);
      if file.None? {
        return Failure(400, NoFile);
      }
      if roomCode.None? {
        return Failure(400, CodeRequired);
      }
      var code := Normalise(roomCode.value);
      if !Acceptable(code) {
        return Failure(400, CodeRequired);
      }
      var rec := NewRecord(file.value, email, code, id, now);
      if !Saveable(rec) {
        return Failure(500, UploadFailed);
      }
      records := records + [rec];
      r := Ok(Uploaded(rec));
    }

    method List(roomCode: Option<string>) returns (r: Response)
      ensures r == Ok(Files(ListFiles(records, roomCode)))
    {
      if roomCode.None? || Trim(roomCode.value) == "" {
        return Ok(Files([]));
      }
      var code := Normalise(roomCode.value);
      var found := Filter(records, Query(code));
      r := Ok(Files(SortDesc(found, UploadedAt)));
    }

    method Delete(id: nat, email: string) returns (r: Response)
      requires Valid(records)
      modifies this
      ensures (records, r) == DeleteFile(old(records), id, email)
      ensures Valid(records)
    {
      DeleteOutcomes(records, id, email);
      var i := FindIndex(records, id);
      if i.None? {
        return Failure(404, NotFound);
      }
      if records[i.value].uploadedBy != email {
        return Failure(403, NotOwner);
      }
      records := Remove(records, id);
      r := Ok(Removed);
    }

    method Verify(roomCode: Option<string>) returns (r: Response)
      ensures r == VerifyRoom(records, roomCode)
    {
      if roomCode.None? || roomCode.value == "" {
        return Failure(400, RoomRequired);
      }
      var n := |Filter(records, InRoom(roomCode.value))|;
      r := Ok(RoomStatus(n > 0, n, roomCode.value));
    }

    /** Visits the records once, creating a group the first time its key is seen. */
    method DebugByRoom() returns (r: Response)
      ensures r == ByRoom(records)
    {
      var grouped: map<string, seq<Listed>> := map[];
      var rooms: seq<string> := [];
      for i := 0 to |records|
        invariant grouped == GroupBy(records[..i], RoomKey, ListedView)
        invariant rooms == KeyOrder(records[..i], RoomKey)
      {
        assert records[..i + 1][..i] == records[..i];
        var room := RoomKey(records[i]);
        GroupIsSelection(records[..i], RoomKey, ListedView, room);
        if room !in grouped {
          grouped := grouped[room := []];
          rooms := rooms + [room];
        }
        grouped := grouped[room := grouped[room] + [ListedView(records[i])]];
      }
      assert records[..|records|] == records;
      r := Ok(Grouped(|records|, rooms, grouped));
    }

    /** Finds the targets first, then deletes them. */
    method CleanupInvalid() returns (r: Response)
      requires Valid(records)
      modifies this
      ensures (records, r) == Cleanup(old(records))
      ensures Valid(records)
    {
      CleanupKeepsValid(records);
      var targets := Filter(records, CleanupTarget);
      CleanedIds(records, Ids(targets), targets);
      RemoveAll(targets);
      r := Ok(Cleaned(|targets|, Names(targets)));
    }

    /** `findByIdAndDelete` for each of fs in turn. */
    method RemoveAll(fs: seq<FileRecord>)
      requires Valid(records)
      modifies this
      ensures records == Filter(old(records), NotIn(Ids(fs)))
    {
      ghost var done: set<nat> := {};
      FilterAll(records, NotIn(done));
      for i := 0 to |fs|
        invariant records == Filter(old(records), NotIn(done))
        invariant done == Ids(fs[..i])
        invariant Valid(records)
      {
        IdsSnoc(fs, i);
        RemoveStep(old(records), done, fs[i].id, records);
        records := Remove(records, fs[i].id);
        done := done + {fs[i].id};
      }
      assert fs[..|fs|] == fs;
    }
  }

  /** Once every target's identifier is removed, exactly the kept records remain. */
  lemma CleanedIds(db: seq<FileRecord>, done: set<nat>, targets: seq<FileRecord>)
    requires Valid(db) && targets == Filter(db, CleanupTarget)
    requires done == Ids(targets)
    ensures Filter(db, NotIn(done)) == Filter(db, Keeps)
  {
    forall x | x in db ensures NotIn(done)(x) == Keeps(x) {
      FilterMembership(db, CleanupTarget, x);
      if x.id in done {
        var y :| y in targets && y.id == x.id;
        FilterMembership(db, CleanupTarget, y);
      }
    }
    FilterExt(db, NotIn(done), Keeps);
  }
}
