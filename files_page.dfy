/**
 * The files page of the browser client: classification of files by name and
 * by MIME type, the relative upload-date label, the file-count label, the
 * room-code generator, joining and leaving a room, the drag-and-drop
 * highlight counter and the owner-only rendering rules of a file card.
 */
module FilesPage {
  import opened Wrappers
  import opened Text
  import FileRooms

  // ---------------------------------------------------------------- by file name

  const ImageExts := ["jpg", "jpeg", "png", "gif", "svg", "webp"]
  const VideoExts := ["mp4", "avi", "mov", "wmv", "webm"]
  const AudioExts := ["mp3", "wav", "ogg", "flac"]
  const DocumentExts := ["doc", "docx", "txt", "rtf"]
  const SpreadsheetExts := ["xls", "xlsx", "csv"]
  const PresentationExts := ["ppt", "pptx"]
  const ArchiveExts := ["zip", "rar", "7z", "tar", "gz"]

  /** `filename.split('.').pop().toLowerCase()`. */
  function Extension(name: string): (r: string)
    ensures '.' !in r
  {
    ToLower(AfterLast(name, '.'))
  }

  /** getFileType: the category of the extension, looked up list by list. */
  function FileType(name: string): string {
    ExtensionType(Extension(name))
  }

  function ExtensionType(ext: string): string {
    if ext in ImageExts then "image"
    else if ext in VideoExts then "video"
    else if ext in AudioExts then "audio"
    else if ext == "pdf" then "pdf"
    else if ext in DocumentExts then "document"
    else if ext in SpreadsheetExts then "spreadsheet"
    else if ext in PresentationExts then "presentation"
    else if ext in ArchiveExts then "archive"
    else "default"
  }

  /** The categories as a table of names and extension lists. */
  const Categories: seq<(string, seq<string>)> := [
    ("image", ImageExts), ("video", VideoExts), ("audio", AudioExts), ("pdf", ["pdf"]),
    ("document", DocumentExts), ("spreadsheet", SpreadsheetExts),
    ("presentation", PresentationExts), ("archive", ArchiveExts)]

  /**
   * No extension is listed under two categories, so an extension's category
   * is the table entry that lists it, whatever the order of the tests.
   */
  lemma ExtensionTypeByTable(ext: string, k: nat)
    requires k < |Categories|
    ensures ext in Categories[k].1 ==> ExtensionType(ext) == Categories[k].0
  {
    if k < 4 {
      MediaByTable(ext, k);
    } else {
      OfficeByTable(ext, k);
    }
  }

  /** The first four entries of the table: image, video, audio and pdf. */
  lemma MediaByTable(ext: string, k: nat)
    requires k < 4
    ensures ext in Categories[k].1 ==> ExtensionType(ext) == Categories[k].0
  {
  }

  /** The last four entries of the table: document, spreadsheet, presentation and archive. */
  lemma OfficeByTable(ext: string, k: nat)
    requires 4 <= k < |Categories|
    ensures ext in Categories[k].1 ==> ExtensionType(ext) == Categories[k].0
  {
    if k == 7 && ext in ArchiveExts {
      assert ext !in ImageExts && ext !in VideoExts && ext !in AudioExts && ext != "pdf";
      assert ext !in DocumentExts && ext !in SpreadsheetExts && ext !in PresentationExts;
    }
  }

  /** `default` exactly when no entry of the table lists the extension. */
  lemma ExtensionTypeDefault(ext: string)
    ensures ExtensionType(ext) == "default" <==> forall j :: 0 <= j < |Categories| ==> ext !in Categories[j].1
  {
    if ext in ImageExts {
      assert ext in Categories[0].1;
    } else if ext in VideoExts {
      assert ext in Categories[1].1;
    } else if ext in AudioExts {
      assert ext in Categories[2].1;
    } else if ext == "pdf" {
      assert ext in Categories[3].1;
    } else if ext in DocumentExts {
      assert ext in Categories[4].1;
    } else if ext in SpreadsheetExts {
      assert ext in Categories[5].1;
    } else if ext in PresentationExts {
      assert ext in Categories[6].1;
    } else if ext in ArchiveExts {
      assert ext in Categories[7].1;
    }
  }

  /** The category ignores the case of the name. */
  lemma FileTypeIgnoresCase(name: string)
    ensures FileType(ToLower(name)) == FileType(name)
  {
    AfterLastLower(name, '.');
    ToLowerIdempotent(AfterLast(name, '.'));
  }

  // ---------------------------------------------------------------- by MIME type

  /** getFileTypeClass, exactly as the tests are ordered in the source. */
  function TypeClass(m: string): string {
    if IsPrefix("image/", m) then "image"
    else if IsPrefix("video/", m) then "video"
    else if IsPrefix("audio/", m) then "audio"
    else if Contains(m, "pdf") then "pdf"
    else if Contains(m, "word") || Contains(m, "document") then "document"
    else if Contains(m, "sheet") || Contains(m, "excel") then "spreadsheet"
    else if Contains(m, "presentation") || Contains(m, "powerpoint") then "presentation"
    else if Contains(m, "zip") || Contains(m, "rar") || Contains(m, "compressed") then "archive"
    else "default"
  }

  /** getFileIcon, exactly as the tests are ordered in the source. */
  function Icon(m: string): string {
    if IsPrefix("image/", m) then "image"
    else if IsPrefix("video/", m) then "videocam"
    else if IsPrefix("audio/", m) then "audiotrack"
    else if Contains(m, "pdf") then "picture_as_pdf"
    else if Contains(m, "word") || Contains(m, "document") then "description"
    else if Contains(m, "sheet") || Contains(m, "excel") then "table_chart"
    else if Contains(m, "presentation") || Contains(m, "powerpoint") then "slideshow"
    else if Contains(m, "zip") || Contains(m, "rar") || Contains(m, "compressed") then "folder_zip"
    else "insert_drive_file"
  }

  /** The icon that goes with each class. */
  function IconFor(cls: string): string {
    match cls
    case "image" => "image"
    case "video" => "videocam"
    case "audio" => "audiotrack"
    case "pdf" => "picture_as_pdf"
    case "document" => "description"
    case "spreadsheet" => "table_chart"
    case "presentation" => "slideshow"
    case "archive" => "folder_zip"
    case _ => "insert_drive_file"
  }

  /** Both functions test the same conditions in the same order, so the icon is the class's icon. */
  lemma IconMatchesClass(m: string)
    ensures Icon(m) == IconFor(TypeClass(m))
    ensures TypeClass(m) == "default" <==> Icon(m) == "insert_drive_file"
  {
  }

  /**
   * As written, the `document` test comes before the `sheet` and
   * `presentation` tests, so an Office Open XML spreadsheet or slide deck,
   * whose MIME type contains "officedocument", is classed as a document.
   */
  lemma OfficeSheetClassedAsDocument(m: string)
    requires !IsPrefix("image/", m) && !IsPrefix("video/", m) && !IsPrefix("audio/", m)
    requires !Contains(m, "pdf") && Contains(m, "document")
    ensures TypeClass(m) == "document" && Icon(m) == "description"
  {
  }

  /** The class with the spreadsheet and presentation tests moved ahead of the document test. */
  function TypeClassFixed(m: string): string {
    if IsPrefix("image/", m) then "image"
    else if IsPrefix("video/", m) then "video"
    else if IsPrefix("audio/", m) then "audio"
    else if Contains(m, "pdf") then "pdf"
    else if Contains(m, "sheet") || Contains(m, "excel") then "spreadsheet"
    else if Contains(m, "presentation") || Contains(m, "powerpoint") then "presentation"
    else if Contains(m, "word") || Contains(m, "document") then "document"
    else if Contains(m, "zip") || Contains(m, "rar") || Contains(m, "compressed") then "archive"
    else "default"
  }

  function IconFixed(m: string): string {
    IconFor(TypeClassFixed(m))
  }

  /**
   * With the fix, a spreadsheet or presentation MIME type gets its own class
   * even when it also says "document", and only the spreadsheet and
   * presentation cases differ from the original.
   */
  lemma FixedClassesOfficeTypes(m: string)
    requires !IsPrefix("image/", m) && !IsPrefix("video/", m) && !IsPrefix("audio/", m) && !Contains(m, "pdf")
    ensures (Contains(m, "sheet") || Contains(m, "excel")) ==> TypeClassFixed(m) == "spreadsheet"
    ensures !(Contains(m, "sheet") || Contains(m, "excel")) ==>
              (Contains(m, "presentation") || Contains(m, "powerpoint")) ==> TypeClassFixed(m) == "presentation"
    ensures TypeClassFixed(m) != TypeClass(m) ==>
              TypeClass(m) == "document" && (TypeClassFixed(m) == "spreadsheet" || TypeClassFixed(m) == "presentation")
  {
  }

  // ---------------------------------------------------------------- labels

  /** The relative date label; older uploads get a calendar date, which is not modelled. */
  datatype DateLabel = Relative(text: string) | Calendar

  /** `Math.floor(a / b)` for b > 0, stated by its defining inequalities. */
  function FloorDiv(a: int, b: int): (q: int)
    requires b > 0
    ensures b * q <= a < b * (q + 1)
  {
    a / b
  }

  /** formatDate, from the millisecond difference between now and the upload. */
  function FormatDate(diff: int): DateLabel {
    var minutes, hours, days := FloorDiv(diff, 60000), FloorDiv(diff, 3600000), FloorDiv(diff, 86400000);
    if minutes < 1 then Relative("Just now")
    else if minutes < 60 then Relative(NatToString(minutes) + "m" + " ago")
    else if hours < 24 then Relative(NatToString(hours) + "h" + " ago")
    else if days < 7 then Relative(NatToString(days) + "d" + " ago")
    else Calendar
  }

  /**
   * The buckets by elapsed time: under a minute (including a clock running
   * behind), 1 to 59 minutes, 1 to 23 hours, 1 to 6 days, and older.
   */
  lemma AgoIsNotJustNow(n: nat, unit: string)
    ensures Relative(NatToString(n) + unit + " ago") != Relative("Just now")
  {
    var r := NatToString(n) + unit + " ago";
    assert r[|r| - 1] == 'o';
  }

  lemma DateBuckets(diff: int)
    ensures FormatDate(diff) == Relative("Just now") <==> diff < 60000
    ensures 60000 <= diff < 3600000 ==>
      var m := diff / 60000; 1 <= m < 60 && FormatDate(diff) == Relative(NatToString(m) + "m" + " ago")
    ensures 3600000 <= diff < 86400000 ==>
      var h := diff / 3600000; 1 <= h < 24 && FormatDate(diff) == Relative(NatToString(h) + "h" + " ago")
    ensures 86400000 <= diff < 604800000 ==>
      var d := diff / 86400000; 1 <= d < 7 && FormatDate(diff) == Relative(NatToString(d) + "d" + " ago")
    ensures FormatDate(diff) == Calendar <==> diff >= 604800000
  {
    if diff >= 60000 {
      var minutes, hours, days := FloorDiv(diff, 60000), FloorDiv(diff, 3600000), FloorDiv(diff, 86400000);
      assert minutes >= 1;
      AgoIsNotJustNow(minutes, "m");
      AgoIsNotJustNow(hours, "h");
      AgoIsNotJustNow(days, "d");
    }
  }

  /** The count label of the file list. */
  function CountLabel(n: nat): string {
    if n == 0 then "0 files"
    else NatToString(n) + " file" + (if n != 1 then "s" else "")
  }

  /** The empty-list text agrees with the general rule: singular exactly for one file. */
  lemma CountLabelRule(n: nat)
    ensures CountLabel(n) == NatToString(n) + (if n == 1 then " file" else " files")
  {
    if n == 0 {
      assert NatToString(0) == "0";
    }
  }

  // ---------------------------------------------------------------- room codes

  const Alphabet := "ABCDEFGHIJKLMNOPQRSTUVWXYZ0123456789"

  /** An upper-case ASCII letter or a digit. */
  predicate CodeChar(ch: char) {
    'A' <= ch <= 'Z' || '0' <= ch <= '9'
  }

  lemma AlphabetChars()
    ensures |Alphabet| == 36 && forall i :: 0 <= i < |Alphabet| ==> CodeChar(Alphabet[i])
  {
  }

  /** One group of three characters, from three draws of `Math.floor(Math.random() * 36)`. */
  function Triple(draws: seq<nat>, g: nat): string
    requires 3 * g + 3 <= |draws| && forall k :: 0 <= k < |draws| ==> draws[k] < |Alphabet|
  {
    [Alphabet[draws[3 * g]], Alphabet[draws[3 * g + 1]], Alphabet[draws[3 * g + 2]]]
  }

  /** The first g groups, joined by dashes. */
  function GroupsOf(draws: seq<nat>, g: nat): string
    requires 3 * g <= |draws| && forall k :: 0 <= k < |draws| ==> draws[k] < |Alphabet|
  {
    if g == 0 then "" else GroupsOf(draws, g - 1) + (if g > 1 then "-" else "") + Triple(draws, g - 1)
  }

  /** Three groups of three code characters separated by two dashes. */
  predicate WellFormedCode(c: string) {
    |c| == 11 && c[3] == '-' && c[7] == '-'
    && forall k :: 0 <= k < 11 && k != 3 && k != 7 ==> CodeChar(c[k])
  }

  /** generateRoomCode, with the nine random draws as input. */
  method GenerateRoomCode(draws: seq<nat>) returns (code: string)
    requires |draws| == 9 && forall k :: 0 <= k < 9 ==> draws[k] < |Alphabet|
    ensures code == GroupsOf(draws, 3) && WellFormedCode(code)
  {
    code := "";
    for i := 0 to 3
      invariant code == GroupsOf(draws, i)
    {
      if i > 0 {
        code := code + "-";
      }
      code := AppendGroup(code, draws, i);
    }
    GroupsWellFormed(draws);
  }

  /** The inner loop of generateRoomCode: three characters of group g appended in draw order. */
  method AppendGroup(prefix: string, draws: seq<nat>, g: nat) returns (code: string)
    requires 3 * g + 3 <= |draws| && forall k :: 0 <= k < |draws| ==> draws[k] < |Alphabet|
    ensures code == prefix + Triple(draws, g)
  {
    code := prefix;
    ghost var group := Triple(draws, g);
    for j := 0 to 3
      invariant code == prefix + group[..j]
    {
      assert group[..j + 1] == group[..j] + [Alphabet[draws[3 * g + j]]];
      code := code + [Alphabet[draws[3 * g + j]]];
    }
    assert group[..3] == group;
  }

  /** Nine draws make a well-formed code. */
  lemma GroupsWellFormed(draws: seq<nat>)
    requires |draws| == 9 && forall k :: 0 <= k < 9 ==> draws[k] < |Alphabet|
    ensures WellFormedCode(GroupsOf(draws, 3))
  {
    AlphabetChars();
    var t0, t1, t2 := Triple(draws, 0), Triple(draws, 1), Triple(draws, 2);
    var c := GroupsOf(draws, 3);
    assert GroupsOf(draws, 1) == t0;
    assert GroupsOf(draws, 2) == t0 + "-" + t1;
    assert c == t0 + "-" + t1 + "-" + t2;
    forall k | 0 <= k < 11 && k != 3 && k != 7 ensures CodeChar(c[k]) {
      if k < 3 {
        assert c[k] == t0[k];
      } else if k < 7 {
        assert c[k] == t1[k - 4];
      } else {
        assert c[k] == t2[k - 8];
      }
    }
  }

  /** A generated code survives trimming and upper-casing, and the upload route accepts it. */
  lemma GeneratedCodeIsNormal(c: string)
    requires WellFormedCode(c)
    ensures FileRooms.Normalise(c) == c && FileRooms.Acceptable(c)
  {
    assert CodeChar(c[0]) && CodeChar(c[10]);
    TrimOfTrimmed(c);
    forall k | 0 <= k < |c| ensures UpperChar(c[k]) == c[k] {
      if k != 3 && k != 7 {
        assert CodeChar(c[k]);
      }
    }
  }

  // ---------------------------------------------------------------- owner rendering

  /** `isOwner ? 'You' : file.uploadedBy.split('@')[0]`. */
  function OwnerLabel(uploadedBy: string, me: string): string {
    if uploadedBy == me then "You" else BeforeFirst(uploadedBy, '@')
  }

  /** The delete button is rendered only for the uploader. */
  predicate ShowsDelete(uploadedBy: string, me: string) {
    uploadedBy == me
  }

  /**
   * The card offers deletion exactly to the user the backend lets delete the
   * file; everyone else sees the uploader's name without its domain.
   */
  lemma DeleteButtonMatchesBackend(db: seq<FileRooms.FileRecord>, i: nat, me: string)
    requires FileRooms.Valid(db) && i < |db|
    ensures ShowsDelete(db[i].uploadedBy, me) <==> FileRooms.DeleteFile(db, db[i].id, me).1.Ok?
    ensures !ShowsDelete(db[i].uploadedBy, me) ==>
      FileRooms.DeleteFile(db, db[i].id, me).1 == FileRooms.Failure(403, FileRooms.NotOwner)
      && OwnerLabel(db[i].uploadedBy, me) == BeforeFirst(db[i].uploadedBy, '@')
  {
    assert db[i] in db;
    var j := FileRooms.FindIndex(db, db[i].id);
    assert j.Some?;
    assert db[j.value] in db;
  }

  /** Any other uploader whose address starts with `You@` is labelled exactly like the user, but gets no delete button. */
  lemma NameCanReadYou(rest: string, me: string)
    requires me != "You@" + rest
    ensures OwnerLabel("You@" + rest, me) == "You" && !ShowsDelete("You@" + rest, me)
  {
    var u := "You@" + rest;
    var r := BeforeFirst(u, '@');
    assert u[0] == 'Y' && u[1] == 'o' && u[2] == 'u' && u[3] == '@';
    assert '@' in u;
    assert r == u[..3] == "You";
  }

  /** What one file card shows. */
  datatype Card = Card(icon: string, typeClass: string, date: DateLabel, uploader: string, deletable: bool)

  /** One card as `displayFiles` builds it, with the icon and class tests as written. */
  function CardOf(f: FileRooms.FileRecord, me: string, now: int): Card {
    Card(Icon(f.mimetype), TypeClass(f.mimetype), FormatDate(now - f.uploadedAt),
         OwnerLabel(f.uploadedBy, me), ShowsDelete(f.uploadedBy, me))
  }

  /** A card's icon is the icon of its class, and the delete button shows exactly for the uploader. */
  lemma CardConsistent(f: FileRooms.FileRecord, me: string, now: int)
    ensures CardOf(f, me, now).icon == IconFor(CardOf(f, me, now).typeClass)
    ensures CardOf(f, me, now).deletable <==> f.uploadedBy == me
    ensures CardOf(f, me, now).deletable ==> CardOf(f, me, now).uploader == "You"
  {
    IconMatchesClass(f.mimetype);
  }

  /** The card with the corrected classification. */
  function CardOfFixed(f: FileRooms.FileRecord, me: string, now: int): Card {
    CardOf(f, me, now).(icon := IconFixed(f.mimetype), typeClass := TypeClassFixed(f.mimetype))
  }

  /** The corrected card differs from the card as written only for a file classed as a document. */
  lemma FixedCardDiffersOnlyForDocuments(f: FileRooms.FileRecord, me: string, now: int)
    ensures TypeClass(f.mimetype) != "document" ==> CardOfFixed(f, me, now) == CardOf(f, me, now)
  {
    IconMatchesClass(f.mimetype);
  }

  /** displayFiles: the count label and one card per listed file, in list order. */
  function Display(files: seq<FileRooms.FileRecord>, me: string, now: int): (r: (string, seq<Card>))
    ensures r.0 == CountLabel(|files|)
    ensures |r.1| == |files|
    ensures forall k :: 0 <= k < |files| ==> r.1[k] == CardOf(files[k], me, now)
  {
    (CountLabel(|files|), seq(|files|, k requires 0 <= k < |files| => CardOf(files[k], me, now)))
  }

  // ---------------------------------------------------------------- page state

  /** The page's globals and what it keeps in local storage. */
  datatype Page = Page(room: Option<string>, stored: Option<string>, modalOpen: bool,
                       dragCounter: int, dragging: bool, redirect: Option<string>)

  /** joinRoom with the text of the room-code field; a blank code is refused with an alert. */
  function EnterRoom(p: Page, input: string): Page {
    var code := FileRooms.Normalise(input);
    if code == "" then p
    else p.(room := Some(code), stored := Some(code), modalOpen := false)
  }

  /** exitRoom with the answer to the confirmation dialog. */
  function Exit(p: Page, confirmed: bool): Page {
    if !confirmed then p
    else p.(room := None, stored := None, redirect := Some("./dashboard.html"))
  }

  function DragEnter(p: Page): Page {
    p.(dragCounter := p.dragCounter + 1, dragging := true)
  }

  function DragLeave(p: Page): Page {
    var c := p.dragCounter - 1;
    if c == 0 then p.(dragCounter := c, dragging := false) else p.(dragCounter := c)
  }

  /** drop: resets the counter; files are uploaded only when a room is joined, else the room dialog opens. */
  function Drop(p: Page, count: nat): (Page, bool) {
    var q := p.(dragCounter := 0, dragging := false);
    if count == 0 then (q, false)
    else if !Truthy(q.room) then (q.(modalOpen := true), false)
    else (q, true)
  }

  /** A blank entry changes nothing; otherwise the normalised code becomes the room and is stored. */
  lemma EnterRoomOutcome(p: Page, input: string)
    ensures Trim(input) == "" ==> EnterRoom(p, input) == p
    ensures Trim(input) != "" ==>
      var q := EnterRoom(p, input);
      q.room == q.stored == Some(FileRooms.Normalise(input)) && !q.modalOpen
      && q.dragCounter == p.dragCounter && q.dragging == p.dragging && q.redirect == p.redirect
  {
    var code := FileRooms.Normalise(input);
    assert |code| == |Trim(input)|;
  }

  /** Leaving happens only on confirmation, and then both the room and its stored copy are cleared. */
  lemma ExitOutcome(p: Page, confirmed: bool)
    ensures !confirmed ==> Exit(p, confirmed) == p
    ensures confirmed ==> Exit(p, confirmed).room.None? && Exit(p, confirmed).stored.None?
  {
  }

  /** The highlight is on exactly while the counter is positive. */
  predicate DragConsistent(p: Page) {
    p.dragCounter >= 0 && (p.dragging <==> p.dragCounter > 0)
  }

  /** Enter, a leave matching an earlier enter, and drop keep the highlight in step with the counter. */
  lemma DragKeepsConsistent(p: Page, count: nat)
    requires DragConsistent(p)
    ensures DragConsistent(DragEnter(p)) && DragConsistent(Drop(p, count).0)
    ensures p.dragCounter > 0 ==> DragConsistent(DragLeave(p))
  {
  }

  /** A leave with no enter before it drives the counter negative; the next enter then highlights at zero. */
  lemma StrayLeaveDesynchronises(p: Page)
    requires DragConsistent(p) && p.dragCounter == 0
    ensures var q := DragEnter(DragLeave(p)); q.dragging && q.dragCounter == 0 && !DragConsistent(q)
  {
  }

  /** The page's globals, updated by its event handlers. */
  class FilesView {
    var room: Option<string>
    var stored: Option<string>
    var modalOpen: bool
    var dragCounter: int
    var dragging: bool
    var redirect: Option<string>

    ghost function Snapshot(): Page
      reads this
    {
      Page(room, stored, modalOpen, dragCounter, dragging, redirect)
    }

    /** Page load: the stored room is resumed; without one the room dialog opens. */
    constructor (saved: Option<string>)
      ensures Snapshot() == Page(saved, saved, !Truthy(saved), 0, false, None)
    {
      room, stored := saved, saved;
      modalOpen := !Truthy(saved);
      dragCounter, dragging := 0, false;
      redirect := None;
    }

    method JoinRoom(input: string) returns (joined: bool)
      modifies this
      ensures Snapshot() == EnterRoom(old(Snapshot()), input)
      ensures joined <==> Trim(input) != ""
    {
      var code := FileRooms.Normalise(input);
      assert |code| == |Trim(input)|;
      if code == "" {
        return false;
      }
      room := Some(code);
      stored := Some(code);
      if Truthy(room) {
        modalOpen := false;
      }
      joined := true;
    }

    method ExitRoom(confirmed: bool)
      modifies this
      ensures Snapshot() == Exit(old(Snapshot()), confirmed)
    {
      if !confirmed {
        return;
      }
      room := None;
      stored := None;
      redirect := Some("./dashboard.html");
    }

    method OnDragEnter()
      modifies this
      ensures Snapshot() == DragEnter(old(Snapshot()))
    {
      dragCounter := dragCounter + 1;
      dragging := true;
    }

    method OnDragLeave()
      modifies this
      ensures Snapshot() == DragLeave(old(Snapshot()))
    {
      dragCounter := dragCounter - 1;
      if dragCounter == 0 {
        dragging := false;
      }
    }

    method OnDrop(count: nat) returns (uploading: bool)
      modifies this
      ensures (Snapshot(), uploading) == Drop(old(Snapshot()), count)
    {
      dragCounter := 0;
      dragging := false;
      if count == 0 {
        return false;
      }
      if !Truthy(room) {
        modalOpen := true;
        return false;
      }
      uploading := true;
    }
  }
}
