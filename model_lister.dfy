/**
 * list_gemini_models.py: fetches the model catalogue once and logs one block
 * per model descriptor, marking the models that support `generateContent`.
 * An entry the loop body cannot read raises; the loop stops there and the
 * handler around it logs the exception. The HTTP outcome is an input; the
 * output file is a ScriptLog.LogFile.
 */
module ModelLister {
  import opened Wrappers
  import opened Text
  import opened ScriptLog
  import EnvConfig

  /** The Python type `response.json()` gives a JSON value. */
  datatype JsonKind = NullKind | BoolKind | IntKind | FloatKind | StringKind | ListKind | ObjectKind

  /** Python's name for the type of a value of that kind. */
  function TypeName(k: JsonKind): string {
    match k
    case NullKind => "NoneType"
    case BoolKind => "bool"
    case IntKind => "int"
    case FloatKind => "float"
    case StringKind => "str"
    case ListKind => "list"
    case ObjectKind => "dict"
  }

  type NotObjectKind = k: JsonKind | !k.ObjectKind? witness NullKind
  type NotStringKind = k: JsonKind | !k.StringKind? witness NullKind

  /** A text field of a descriptor: missing, JSON null, or a string. */
  datatype Field = Absent | Null | Given(s: string)

  /** One element of `supportedGenerationMethods`. */
  datatype Item = Name(s: string) | NonString(kind: NotStringKind)

  /** The `supportedGenerationMethods` field: missing, JSON null, or an array. */
  datatype MethodsField = NoMethods | NullMethods | Listed(items: seq<Item>)

  /** A descriptor object. */
  datatype Descriptor = Descriptor(name: Field, displayName: Field, methods: MethodsField)

  /** One element of `data['models']`: an object, or a value of another kind. */
  datatype Entry = Object(d: Descriptor) | NotObject(kind: NotObjectKind)

  /** What `response.json()` yields for a 200 reply. */
  datatype Catalogue =
    | Models(entries: seq<Entry>)       // the object has a "models" array
    | NoModelsField                     // it has no "models" key
    | Unparseable(error: string)        // json() raised; str(e)

  /** The outcome of `requests.get(...)`. */
  datatype Reply =
    | Replied(status: nat, text: string, body: Catalogue)
    | Raised(error: string)

  const ChatMarker: string := "  ✅ CAN USE FOR CHAT"

  // ---------------------------------------------------------------- exceptions in the loop

  /** `model.get` on a value that is not a dict raises AttributeError. */
  function NoGetError(k: NotObjectKind): string {
    "'" + TypeName(k) + "' object has no attribute 'get'"
  }

  /** `'/' in name` with a null name raises TypeError. */
  const NameNotIterable := "argument of type 'NoneType' is not iterable"

  /** `', '.join(None)` raises TypeError. */
  const JoinNotIterable := "can only join an iterable"

  /** `', '.join(items)` raises TypeError at the first element that is not a string. */
  function JoinItemError(i: nat, k: NotStringKind): string {
    "sequence item " + NatToString(i) + ": expected str instance, " + TypeName(k) + " found"
  }

  /** Index of the first element that is not a string. */
  function FirstNonString(items: seq<Item>): (r: Option<nat>)
    ensures r.Some? ==> r.value < |items| && items[r.value].NonString?
                        && forall j :: 0 <= j < r.value ==> items[j].Name?
    ensures r.None? ==> forall j :: 0 <= j < |items| ==> items[j].Name?
  {
    if items == [] then None
    else if items[0].NonString? then Some(0)
    else match FirstNonString(items[1..])
      case None => None
      case Some(i) => Some(i + 1)
  }

  /** The exception `', '.join(...)` raises for the methods field, if any. */
  function MethodsError(m: MethodsField): Option<string> {
    match m
    case NoMethods => None
    case NullMethods => Some(JoinNotIterable)
    case Listed(items) =>
      match FirstNonString(items)
      case None => None
      case Some(i) => Some(JoinItemError(i, items[i].kind))
  }

  /** A descriptor the loop body gets through: the name is not null and the methods join. */
  predicate Readable(d: Descriptor) {
    !d.name.Null? && MethodsError(d.methods).None?
  }

  /** An entry whose block is logged in full. */
  predicate Completes(e: Entry) {
    e.Object? && Readable(e.d)
  }

  // ---------------------------------------------------------------- the fields

  /** `model.get('name', 'Unknown')`, for a name that is not null. */
  function NameOf(d: Descriptor): string
    requires !d.name.Null?
  {
    if d.name.Given? then d.name.s else "Unknown"
  }

  /** `model.get('displayName', 'N/A')` as the f-string shows it: a null prints as `None`. */
  function DisplayNameOf(d: Descriptor): string {
    match d.displayName
    case Absent => "N/A"
    case Null => "None"
    case Given(s) => s
  }

  /** The method names, for a methods field that joins; a missing field is `[]`. */
  function MethodsOf(d: Descriptor): seq<string>
    requires Readable(d)
  {
    match d.methods
    case NoMethods => []
    case NullMethods => []
    case Listed(items) => seq(|items|, j requires 0 <= j < |items| => items[j].s)
  }

  predicate SupportsChat(d: Descriptor)
    requires Readable(d)
  {
    "generateContent" in MethodsOf(d)
  }

  /**
   * `name.split('/')[-1] if '/' in name else name`: the part after the last
   * slash, and the whole name when there is none.
   */
  function ModelId(name: string): (id: string)
    ensures '/' !in id
    ensures '/' !in name ==> id == name
    ensures '/' in name ==> |id| < |name| && name[|name| - |id| - 1] == '/'
    ensures id == name[|name| - |id|..]
  {
    AfterLast(name, '/')
  }

  /** The four lines logged before the methods are joined. */
  function HeadLines(d: Descriptor): seq<string>
    requires !d.name.Null?
  {
    ["", "Model ID: " + ModelId(NameOf(d)), "  Full Name: " + NameOf(d), "  Display Name: " + DisplayNameOf(d)]
  }

  /** The five lines every readable descriptor gets. */
  function FieldLines(d: Descriptor): seq<string>
    requires Readable(d)
  {
    HeadLines(d) + ["  Supports: " + Join(", ", MethodsOf(d))]
  }

  /** The chat marker, for a model that supports `generateContent`. */
  function ChatLines(d: Descriptor): seq<string>
    requires Readable(d)
  {
    if SupportsChat(d) then [ChatMarker] else []
  }

  /** The lines logged for a readable descriptor. */
  function DescriptorBlock(d: Descriptor): seq<string>
    requires Readable(d)
  {
    FieldLines(d) + ChatLines(d)
  }

  /**
   * One pass of the loop body: the lines it logs and the exception it raises,
   * if any. A non-object entry and a null name raise before anything is
   * logged; a methods field that does not join raises after the four head lines.
   */
  function EntryOutcome(e: Entry): (seq<string>, Option<string>) {
    match e
    case NotObject(k) => ([], Some(NoGetError(k)))
    case Object(d) =>
      if d.name.Null? then ([], Some(NameNotIterable))
      else if MethodsError(d.methods).Some? then (HeadLines(d), MethodsError(d.methods))
      else (DescriptorBlock(d), None)
  }

  /**
   * The loop over `data['models']`: the lines logged and the exception that
   * ended it, if any. The first entry that raises stops the loop; the
   * entries after it are never read.
   */
  function EntriesOutcome(es: seq<Entry>): (seq<string>, Option<string>)
    decreases |es|
  {
    if es == [] then ([], None)
    else
      var prev := EntriesOutcome(es[..|es| - 1]);
      if prev.1.Some? then prev
      else
        var last := EntryOutcome(es[|es| - 1]);
        (prev.0 + last.0, last.1)
  }

  /** An entry raises exactly when it is not read through; one that is logs its block. */
  lemma EntryCompletes(e: Entry)
    ensures EntryOutcome(e).1.None? <==> Completes(e)
    ensures Completes(e) ==> EntryOutcome(e).0 == DescriptorBlock(e.d)
  {
  }

  /**
   * Which entries raise, with which message, and what they have logged by
   * then: nothing for a non-object or a null name, the four head lines when
   * the methods field is null.
   */
  lemma EntryRaises(e: Entry)
    ensures e.NotObject? ==> EntryOutcome(e) == ([], Some(NoGetError(e.kind)))
    ensures e.Object? && e.d.name.Null? ==> EntryOutcome(e) == ([], Some(NameNotIterable))
    ensures e.Object? && !e.d.name.Null? && e.d.methods == NullMethods ==>
      EntryOutcome(e) == (HeadLines(e.d), Some(JoinNotIterable))
  {
  }

  /** A method list raises at its first element that is not a string, after the four head lines. */
  lemma MethodItemRaises(d: Descriptor, i: nat)
    requires !d.name.Null? && d.methods.Listed?
    requires i < |d.methods.items| && d.methods.items[i].NonString?
    requires forall j :: 0 <= j < i ==> d.methods.items[j].Name?
    ensures EntryOutcome(Object(d)) == (HeadLines(d), Some(JoinItemError(i, d.methods.items[i].kind)))
  {
    FirstNonStringAt(d.methods.items, i);
    assert MethodsError(d.methods) == Some(JoinItemError(i, d.methods.items[i].kind));
  }

  /** The first element that is not a string is the one `FirstNonString` finds. */
  lemma FirstNonStringAt(items: seq<Item>, i: nat)
    requires i < |items| && items[i].NonString?
    requires forall j :: 0 <= j < i ==> items[j].Name?
    ensures FirstNonString(items) == Some(i)
  {
    var f := FirstNonString(items);
    assert f.Some?;
    assert !(f.value < i) && !(i < f.value);
  }

  /** One more entry, when none before it raised. */
  lemma EntriesSnoc(es: seq<Entry>, i: nat)
    requires i < |es| && EntriesOutcome(es[..i]).1.None?
    ensures EntriesOutcome(es[..i + 1]).0 == EntriesOutcome(es[..i]).0 + EntryOutcome(es[i]).0
    ensures EntriesOutcome(es[..i + 1]).1 == EntryOutcome(es[i]).1
  {
    assert es[..i + 1][..i] == es[..i];
  }

  /** Once an entry has raised, the rest of the entries change nothing. */
  lemma {:induction false} RaisedStops(es: seq<Entry>, i: nat)
    requires i <= |es| && EntriesOutcome(es[..i]).1.Some?
    ensures EntriesOutcome(es) == EntriesOutcome(es[..i])
    decreases |es| - i
  {
    if i < |es| {
      assert es[..i + 1][..i] == es[..i];
      RaisedStops(es, i + 1);
    } else {
      assert es[..i] == es;
    }
  }

  /** Every entry is read through. */
  predicate AllComplete(es: seq<Entry>) {
    forall j :: 0 <= j < |es| ==> Completes(es[j])
  }

  lemma AllCompleteInit(es: seq<Entry>)
    requires es != []
    ensures AllComplete(es) <==> AllComplete(es[..|es| - 1]) && Completes(es[|es| - 1])
  {
    assert forall j :: 0 <= j < |es| - 1 ==> es[..|es| - 1][j] == es[j];
  }

  /** The loop ends without an exception exactly when every entry is read through. */
  lemma {:induction false} AllCompleteLogged(es: seq<Entry>)
    ensures EntriesOutcome(es).1.None? <==> AllComplete(es)
    decreases |es|
  {
    if es != [] {
      var n := |es| - 1;
      AllCompleteInit(es);
      AllCompleteLogged(es[..n]);
      EntryCompletes(es[n]);
    }
  }

  /**
   * The first entry that raises ends the loop: the lines are those of the
   * entries before it, then what it logged itself, and its exception is the
   * one reported. (AllCompleteLogged gives the first requirement when every
   * earlier entry is read through.)
   */
  lemma FirstRaiseReported(es: seq<Entry>, k: nat)
    requires k < |es| && EntriesOutcome(es[..k]).1.None? && !Completes(es[k])
    ensures EntriesOutcome(es).0 == EntriesOutcome(es[..k]).0 + EntryOutcome(es[k]).0
    ensures EntriesOutcome(es).1 == EntryOutcome(es[k]).1 && EntryOutcome(es[k]).1.Some?
  {
    EntriesSnoc(es, k);
    EntryCompletes(es[k]);
    RaisedAt(es, k);
  }

  /** The exception of the first entry that raises is the loop's. */
  lemma RaisedAt(es: seq<Entry>, k: nat)
    requires k < |es| && EntriesOutcome(es[..k]).1.None? && EntryOutcome(es[k]).1.Some?
    ensures EntriesOutcome(es) == EntriesOutcome(es[..k + 1])
    ensures EntriesOutcome(es[..k + 1]).1 == EntryOutcome(es[k]).1
  {
    EntriesSnoc(es, k);
    var j := k + 1;
    assert EntriesOutcome(es[..j]).1.Some?;
    RaisedStops(es, j);
  }

  /** Number of lines of `ls` satisfying `p`. */
  function CountLines(ls: seq<string>, p: string -> bool): nat
    decreases |ls|
  {
    if ls == [] then 0 else CountLines(ls[..|ls| - 1], p) + (if p(ls[|ls| - 1]) then 1 else 0)
  }

  lemma {:induction false} CountLinesAppend(a: seq<string>, b: seq<string>, p: string -> bool)
    ensures CountLines(a + b, p) == CountLines(a, p) + CountLines(b, p)
    decreases |b|
  {
    if b == [] {
      assert a + b == a;
    } else {
      var n := |b| - 1;
      assert (a + b)[..|a + b| - 1] == a + b[..n];
      CountLinesAppend(a, b[..n], p);
    }
  }

  /** Number of entries whose block is logged in full with the chat marker. */
  function CountChat(es: seq<Entry>): nat
    decreases |es|
  {
    if es == [] then 0
    else CountChat(es[..|es| - 1]) + (if Completes(es[|es| - 1]) && SupportsChat(es[|es| - 1].d) then 1 else 0)
  }

  predicate IsChatMarker(line: string) {
    line == ChatMarker
  }

  predicate IsIdLine(line: string) {
    IsPrefix("Model ID: ", line)
  }

  /** What one entry contributes to the two counts, whether or not it raises. */
  lemma EntryCounts(e: Entry)
    ensures CountLines(EntryOutcome(e).0, IsIdLine) == (if e.Object? && !e.d.name.Null? then 1 else 0)
    ensures CountLines(EntryOutcome(e).0, IsChatMarker) == (if Completes(e) && SupportsChat(e.d) then 1 else 0)
  {
    match e
    case NotObject(_) =>
    case Object(d) =>
      if !d.name.Null? {
        HeadCounts(d);
        if Readable(d) {
          BlockCounts(d);
        }
      }
  }

  /**
   * A chat marker for each entry that is logged in full and lists
   * `generateContent`; when an entry raises, the entries after it add none.
   */
  lemma {:induction false} ChatMarkersCounted(es: seq<Entry>)
    ensures CountLines(EntriesOutcome(es).0, IsChatMarker) <= CountChat(es)
    ensures EntriesOutcome(es).1.None? ==> CountLines(EntriesOutcome(es).0, IsChatMarker) == CountChat(es)
    decreases |es|
  {
    if es != [] {
      var n := |es| - 1;
      ChatMarkersCounted(es[..n]);
      var prev := EntriesOutcome(es[..n]);
      if prev.1.None? {
        CountLinesAppend(prev.0, EntryOutcome(es[n]).0, IsChatMarker);
        EntryCounts(es[n]);
      }
    }
  }

  /** At most one "Model ID" line per entry, and exactly one per entry when none raises. */
  lemma {:induction false} IdLinesCounted(es: seq<Entry>)
    ensures CountLines(EntriesOutcome(es).0, IsIdLine) <= |es|
    ensures EntriesOutcome(es).1.None? ==> CountLines(EntriesOutcome(es).0, IsIdLine) == |es|
    decreases |es|
  {
    if es != [] {
      var n := |es| - 1;
      IdLinesCounted(es[..n]);
      var prev := EntriesOutcome(es[..n]);
      if prev.1.None? {
        CountLinesAppend(prev.0, EntryOutcome(es[n]).0, IsIdLine);
        EntryCounts(es[n]);
        EntryCompletes(es[n]);
      }
    }
  }

  /** CountLines on a four-line sequence, line by line. */
  lemma CountFour(ls: seq<string>, p: string -> bool)
    requires |ls| == 4
    ensures CountLines(ls, p) == (if p(ls[0]) then 1 else 0) + (if p(ls[1]) then 1 else 0)
              + (if p(ls[2]) then 1 else 0) + (if p(ls[3]) then 1 else 0)
  {
    forall k | 0 < k <= 4
      ensures CountLines(ls[..k], p) == CountLines(ls[..k - 1], p) + (if p(ls[k - 1]) then 1 else 0)
    {
      assert ls[..k][..k - 1] == ls[..k - 1];
    }
    assert ls[..4] == ls;
  }

  /** CountLines on one line. */
  lemma CountOne(line: string, p: string -> bool)
    ensures CountLines([line], p) == if p(line) then 1 else 0
  {
    assert [line][..0] == [];
  }

  /** The head lines hold one id line and no chat marker. */
  lemma HeadCounts(d: Descriptor)
    requires !d.name.Null?
    ensures CountLines(HeadLines(d), IsIdLine) == 1
    ensures CountLines(HeadLines(d), IsChatMarker) == 0
  {
    var head := HeadLines(d);
    HeadLineKinds(d);
    CountFour(head, IsIdLine);
    CountFour(head, IsChatMarker);
  }

  /** One block holds one id line, and a chat marker iff the model supports chat. */
  lemma BlockCounts(d: Descriptor)
    requires Readable(d)
    ensures CountLines(DescriptorBlock(d), IsIdLine) == 1
    ensures CountLines(DescriptorBlock(d), IsChatMarker) == (if SupportsChat(d) then 1 else 0)
  {
    var supports := "  Supports: " + Join(", ", MethodsOf(d));
    HeadCounts(d);
    LabelledLine("  Supports: ", Join(", ", MethodsOf(d)));
    CountOne(supports, IsIdLine);
    CountOne(supports, IsChatMarker);
    CountLinesAppend(HeadLines(d), [supports], IsIdLine);
    CountLinesAppend(HeadLines(d), [supports], IsChatMarker);
    ChatLinesCounts(d);
    CountLinesAppend(FieldLines(d), ChatLines(d), IsIdLine);
    CountLinesAppend(FieldLines(d), ChatLines(d), IsChatMarker);
  }

  /** The chat marker is not an id line, and it counts once when present. */
  lemma ChatLinesCounts(d: Descriptor)
    requires Readable(d)
    ensures CountLines(ChatLines(d), IsIdLine) == 0
    ensures CountLines(ChatLines(d), IsChatMarker) == (if SupportsChat(d) then 1 else 0)
  {
    if SupportsChat(d) {
      assert ChatLines(d)[..0] == [];
      assert ChatMarker[0] == ' ' && "Model ID: "[0] == 'M';
    }
  }

  /** Of the four head lines only the second is an id line, and none is a chat marker. */
  lemma HeadLineKinds(d: Descriptor)
    requires !d.name.Null?
    ensures var head := HeadLines(d);
      |head| == 4 && IsIdLine(head[1]) && !IsIdLine(head[0]) && !IsIdLine(head[2]) && !IsIdLine(head[3])
      && !IsChatMarker(head[0]) && !IsChatMarker(head[1]) && !IsChatMarker(head[2]) && !IsChatMarker(head[3])
  {
    assert !IsIdLine("") && !IsChatMarker("");
    IdLineKind(ModelId(NameOf(d)));
    LabelledLine("  Full Name: ", NameOf(d));
    LabelledLine("  Display Name: ", DisplayNameOf(d));
  }

  /** The "Model ID" line is an id line and not a chat marker. */
  lemma IdLineKind(id: string)
    ensures IsIdLine("Model ID: " + id) && !IsChatMarker("Model ID: " + id)
  {
    var line := "Model ID: " + id;
    assert line[..10] == "Model ID: ";
    assert line[0] == 'M' && ChatMarker[0] == ' ';
  }

  /** A field line whose label starts with two spaces and a letter is neither an id line nor a chat marker. */
  lemma LabelledLine(tag: string, v: string)
    requires 2 < |tag| && (tag[2] == 'F' || tag[2] == 'D' || tag[2] == 'S')
    ensures !IsIdLine(tag + v) && !IsChatMarker(tag + v)
  {
    var line := tag + v;
    assert line[2] == tag[2];
    assert ChatMarker[2] == '✅';
    assert "Model ID: "[2] == 'd';
  }

  /**
   * The lines for a 200 reply with a models array: the heading with the
   * number of entries, the loop's lines, then the footer, or the error line
   * when an entry raised, since the handler at the end of the `try` catches it.
   */
  function ModelsLines(es: seq<Entry>): seq<string> {
    var out := EntriesOutcome(es);
    ListHeader(|es|) + out.0 + (if out.1.Some? then ["❌ Error: " + out.1.value] else ListFooter())
  }

  /** The lines logged for the fetch outcome. */
  function ReplyLines(reply: Reply): seq<string> {
    match reply
    case Raised(e) => ["❌ Error: " + e]
    case Replied(status, text, body) =>
      if status == 200 then
        match body
        case Models(es) => ModelsLines(es)
        case NoModelsField => ["❌ No models found in response"]
        case Unparseable(e) => ["❌ Error: " + e]
      else ["❌ HTTP " + NatToString(status) + ": " + Take(text, 300)]
  }

  /**
   * The announced count is the number of entries. When no entry raises it is
   * the number of "Model ID" blocks that follow and the footer closes the
   * listing; otherwise fewer blocks may follow and the listing ends with the
   * exception instead of the footer.
   */
  lemma AnnouncedCountMatchesBlocks(es: seq<Entry>)
    ensures ModelsLines(es)[0] == "✅ Found " + NatToString(|es|) + " models!"
    ensures CountLines(EntriesOutcome(es).0, IsIdLine) <= |es|
    ensures EntriesOutcome(es).1.None? ==>
      CountLines(EntriesOutcome(es).0, IsIdLine) == |es|
      && ModelsLines(es) == ListHeader(|es|) + EntriesOutcome(es).0 + ListFooter()
    ensures EntriesOutcome(es).1.Some? ==>
      ModelsLines(es)[|ModelsLines(es)| - 1] == "❌ Error: " + EntriesOutcome(es).1.value
  {
    IdLinesCounted(es);
  }

  /** The heading above the descriptor blocks, with the number of models. */
  function ListHeader(count: nat): seq<string> {
    ["✅ Found " + NatToString(count) + " models!", "", "📋 AVAILABLE MODELS:", Repeat('-', 70)]
  }

  function ListFooter(): seq<string> {
    ["", Repeat('=', 70), "💡 TIP: Use the 'Model ID' in your Node.js code", Repeat('=', 70)]
  }

  function Banner(): seq<string> {
    [Repeat('=', 70), "📋 LISTING AVAILABLE GEMINI MODELS", Repeat('=', 70), ""]
  }

  function KeyLines(apiKey: string): seq<string> {
    ["🔑 Using API Key: " + Take(apiKey, 10) + "..." + TakeLast(apiKey, 4), "",
     "🔍 Fetching available models from v1beta API...", ""]
  }

  function Footer(outputPath: string): seq<string> {
    ["", "📄 Results saved to: " + outputPath]
  }

  /** The API key: a missing file reads as an empty configuration. */
  function ApiKey(envFile: Option<seq<string>>): Option<string> {
    var env := if envFile.Some? then EnvConfig.ParseLines(envFile.value) else map[];
    EnvConfig.KeyIn(env)
  }

  method ReadKey(envFile: Option<seq<string>>) returns (key: Option<string>)
    ensures key == ApiKey(envFile)
  {
    var env := EnvConfig.LoadEnvFile(envFile);
    key := EnvConfig.KeyIn(env);
  }

  /** Logs one pass of the loop body; the exception it raises is returned. */
  method LogEntry(log: LogFile, e: Entry) returns (raised: Option<string>)
    modifies log
    ensures log.lines == old(log.lines) + EntryOutcome(e).0
    ensures raised == EntryOutcome(e).1
  {
    match e
    case NotObject(k) =>
      return Some(NoGetError(k));
    case Object(d) =>
      if d.name.Null? {
        return Some(NameNotIterable);
      }
      log.LogAll(HeadLines(d));
      var err := MethodsError(d.methods);
      if err.Some? {
        return err;
      }
      log.Log("  Supports: " + Join(", ", MethodsOf(d)));
      ConcatAssoc(old(log.lines), HeadLines(d), ["  Supports: " + Join(", ", MethodsOf(d))]);
      if "generateContent" in MethodsOf(d) {
        log.Log(ChatMarker);
        ConcatAssoc(old(log.lines), FieldLines(d), [ChatMarker]);
      } else {
        assert FieldLines(d) + ChatLines(d) == FieldLines(d);
      }
      raised := None;
  }

  /** The loop: logs entry after entry and stops at the first exception, which it returns. */
  method LogEntries(log: LogFile, es: seq<Entry>) returns (raised: Option<string>)
    modifies log
    ensures log.lines == old(log.lines) + EntriesOutcome(es).0
    ensures raised == EntriesOutcome(es).1
  {
    raised := None;
    var i := 0;
    while i < |es| && raised.None?
      invariant 0 <= i <= |es|
      invariant log.lines == old(log.lines) + EntriesOutcome(es[..i]).0
      invariant raised == EntriesOutcome(es[..i]).1
      decreases |es| - i
    {
      EntriesSnoc(es, i);
      raised := LogEntry(log, es[i]);
      ConcatAssoc(old(log.lines), EntriesOutcome(es[..i]).0, EntryOutcome(es[i]).0);
      i := i + 1;
    }
    if i < |es| {
      RaisedStops(es, i);
    } else {
      assert es[..i] == es;
    }
  }

  /** Logs the lines for the fetch outcome; an exception inside the `try` is logged, not raised. */
  method LogReply(log: LogFile, reply: Reply)
    modifies log
    ensures log.lines == old(log.lines) + ReplyLines(reply)
  {
    match reply
    case Raised(e) =>
      log.Log("❌ Error: " + e);
    case Replied(status, text, body) =>
      if status == 200 {
        match body
        case Models(es) =>
          ghost var start := log.lines;
          log.LogAll(ListHeader(|es|));
          var raised := LogEntries(log, es);
          ConcatAssoc(start, ListHeader(|es|), EntriesOutcome(es).0);
          if raised.Some? {
            log.Log("❌ Error: " + raised.value);
            ConcatAssoc(start, ListHeader(|es|) + EntriesOutcome(es).0, ["❌ Error: " + raised.value]);
          } else {
            log.LogAll(ListFooter());
            ConcatAssoc(start, ListHeader(|es|) + EntriesOutcome(es).0, ListFooter());
          }
        case NoModelsField =>
          log.Log("❌ No models found in response");
        case Unparseable(e) =>
          log.Log("❌ Error: " + e);
      } else {
        log.Log("❌ HTTP " + NatToString(status) + ": " + Take(text, 300));
      }
  }

  /**
   * The whole script. Without a usable key it exits with 1 and sends no
   * request (`fetched` is false); otherwise it fetches once, logs the outcome
   * and the footer, and ends normally whatever the outcome was.
   */
  method RunLister(log: LogFile, envFile: Option<seq<string>>, reply: Reply, outputPath: string)
    returns (exitCode: int, fetched: bool)
    modifies log
    ensures ApiKey(envFile).None? ==>
              exitCode == 1 && !fetched && log.lines == old(log.lines) + Banner() + ["❌ No API key found"]
    ensures ApiKey(envFile).Some? ==>
              exitCode == 0 && fetched
              && log.lines == old(log.lines) + Banner() + KeyLines(ApiKey(envFile).value)
                              + ReplyLines(reply) + Footer(outputPath)
  {
    log.LogAll(Banner());
    var key := ReadKey(envFile);
    if key.None? {
      log.Log("❌ No API key found");
      return 1, false;
    }
    log.LogAll(KeyLines(key.value));
    fetched := true;
    LogReply(log, reply);
    log.LogAll(Footer(outputPath));
    exitCode := 0;
  }
}
