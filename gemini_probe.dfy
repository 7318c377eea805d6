/**
 * test_gemini_api.py: probes three fixed candidate models with one
 * generateContent request each, logs every outcome and recommends the first
 * model that answered. HTTP replies are inputs; the script's output file is a
 * ScriptLog.LogFile; the process exit status is the returned exit code.
 */
module GeminiProbe {
  import opened Wrappers
  import opened Text
  import opened ScriptLog
  import EnvConfig

  /** The fixed candidate list, probed in this order. */
  const Candidates: seq<string> := ["gemini-1.5-flash", "gemini-1.5-pro", "gemini-pro"]

  /** What `response.json()` and the candidate lookup yield for a reply. */
  datatype Body =
    | NoCandidates                  // the JSON object has no "candidates" key
    | CandidateText(text: string)   // candidates[0].content.parts[0].text
    | BodyError(error: string)      // json() or the nested lookup raised; str(e)

  /** The outcome of `requests.post(...)`. */
  datatype Reply =
    | Replied(status: nat, text: string, body: Body)
    | Raised(error: string)         // a network or timeout exception; str(e)

  datatype ProbeResult = ProbeResult(success: bool, message: string)

  /** The reply is a 200 whose first candidate carries a text. */
  predicate Succeeds(reply: Reply) {
    reply.Replied? && reply.status == 200 && reply.body.CandidateText?
  }

  /** `test_api_v1beta`: turns one HTTP outcome into (success, message). */
  function Classify(reply: Reply): (r: ProbeResult)
    ensures r.success <==> Succeeds(reply)
  {
    match reply
    case Raised(e) => ProbeResult(false, Take(e, 200))
    case Replied(status, text, body) =>
      if status == 200 then
        match body
        case CandidateText(t) => ProbeResult(true, t)
        case NoCandidates => ProbeResult(false, "No response")
        case BodyError(e) => ProbeResult(false, Take(e, 200))
      else ProbeResult(false, "HTTP " + NatToString(status) + ": " + Take(text, 200))
  }

  /**
   * The message is the candidate text on success, "No response" for a 200
   * without candidates, the cause cut to 200 characters for a broken body or an
   * exception, and the status code with the body cut to 200 for any other status.
   */
  lemma ClassifyMessages(reply: Reply)
    ensures Succeeds(reply) ==> Classify(reply).message == reply.body.text
    ensures reply.Replied? && reply.status == 200 && reply.body.NoCandidates? ==> Classify(reply).message == "No response"
    ensures reply.Replied? && reply.status == 200 && reply.body.BodyError? ==> Classify(reply).message == Take(reply.body.error, 200)
    ensures reply.Replied? && reply.status != 200 ==>
              Classify(reply).message == "HTTP " + NatToString(reply.status) + ": " + Take(reply.text, 200)
    ensures reply.Raised? ==> Classify(reply).message == Take(reply.error, 200)
  {
  }

  /** A failure message never exceeds the prefix plus 200 characters of the cause. */
  lemma FailureMessageBounded(reply: Reply)
    requires !Succeeds(reply)
    ensures reply.Replied? && reply.status != 200 ==>
              |Classify(reply).message| <= |"HTTP " + NatToString(reply.status) + ": "| + 200
    ensures !(reply.Replied? && reply.status != 200) ==> |Classify(reply).message| <= 200
  {
  }

  /** `f"{api_key[:10]}...{api_key[-4:]}"`. */
  function MaskKey(key: string): (m: string)
    ensures |m| == |Take(key, 10)| + 3 + |TakeLast(key, 4)|
    ensures m[..|Take(key, 10)|] == Take(key, 10)
    ensures m[|Take(key, 10)|..|Take(key, 10)| + 3] == "..."
    ensures m[|m| - |TakeLast(key, 4)|..] == TakeLast(key, 4)
  {
    Take(key, 10) + "..." + TakeLast(key, 4)
  }

  /**
   * For a key of at most 14 characters the two displayed ends overlap or meet,
   * so the mask shows every character of the key: the key is its first shown
   * part followed by a suffix of the second.
   */
  lemma ShortKeyFullyShown(key: string)
    requires 0 < |key| <= 14
    ensures var shown := MaskKey(key);
      var rest := key[|Take(key, 10)|..];
      shown[..|Take(key, 10)|] + rest == key && rest == shown[|shown| - |rest|..]
  {
  }

  /** The models in `ms` whose replies succeed, in candidate order. */
  function Working(ms: seq<string>, rs: seq<Reply>): seq<string>
    requires |ms| == |rs|
    decreases |ms|
  {
    if ms == [] then []
    else Working(ms[..|ms| - 1], rs[..|rs| - 1]) + (if Succeeds(rs[|rs| - 1]) then [ms[|ms| - 1]] else [])
  }

  /** `working` holds exactly the succeeding candidates. */
  lemma {:induction false} WorkingMembers(ms: seq<string>, rs: seq<Reply>, m: string)
    requires |ms| == |rs|
    ensures m in Working(ms, rs) <==> exists i :: 0 <= i < |ms| && ms[i] == m && Succeeds(rs[i])
    decreases |ms|
  {
    if ms != [] {
      var n := |ms| - 1;
      var w' := Working(ms[..n], rs[..n]);
      var tail := if Succeeds(rs[n]) then [ms[n]] else [];
      WorkingMembers(ms[..n], rs[..n], m);
      assert Working(ms, rs) == w' + tail;
      if m in w' {
        var i :| 0 <= i < n && ms[..n][i] == m && Succeeds(rs[..n][i]);
        assert ms[i] == m && Succeeds(rs[i]);
      } else if m in tail {
        assert ms[n] == m && Succeeds(rs[n]);
      }
      if exists i :: 0 <= i < |ms| && ms[i] == m && Succeeds(rs[i]) {
        var i :| 0 <= i < |ms| && ms[i] == m && Succeeds(rs[i]);
        if i < n {
          assert ms[..n][i] == m && Succeeds(rs[..n][i]);
          assert m in w';
        } else {
          assert m in tail;
        }
      }
    }
  }

  /**
   * The recommended model `working[0]` is the candidate of the first succeeding
   * reply, and `working` is empty exactly when no reply succeeds.
   */
  lemma {:induction false} WorkingFirst(ms: seq<string>, rs: seq<Reply>)
    requires |ms| == |rs|
    ensures Working(ms, rs) == [] <==> forall i :: 0 <= i < |rs| ==> !Succeeds(rs[i])
    ensures Working(ms, rs) != [] ==>
              exists i :: 0 <= i < |ms| && Working(ms, rs)[0] == ms[i] && Succeeds(rs[i])
                          && forall j :: 0 <= j < i ==> !Succeeds(rs[j])
    decreases |ms|
  {
    if ms != [] {
      var n := |ms| - 1;
      var w, w' := Working(ms, rs), Working(ms[..n], rs[..n]);
      WorkingFirst(ms[..n], rs[..n]);
      assert w == w' + (if Succeeds(rs[n]) then [ms[n]] else []);
      assert forall j :: 0 <= j < n ==> rs[..n][j] == rs[j];
      if w' != [] {
        var i :| 0 <= i < n && w'[0] == ms[..n][i] && Succeeds(rs[..n][i])
                 && forall j :: 0 <= j < i ==> !Succeeds(rs[..n][j]);
        assert w[0] == w'[0] == ms[i];
      } else if Succeeds(rs[n]) {
        assert w[0] == ms[n];
      }
    }
  }

  /** The lines logged for one probed candidate. */
  function ProbeBlock(model: string, r: ProbeResult): seq<string> {
    ["   • " + model]
    + (if r.success then ["     ✅ SUCCESS!", "     Response: " + Take(r.message, 80)]
       else ["     ❌ " + Take(r.message, 120)])
    + [""]
  }

  /** The lines logged by the probe loop for the candidates `ms`. */
  function ProbeLines(ms: seq<string>, rs: seq<Reply>): seq<string>
    requires |ms| == |rs|
    decreases |ms|
  {
    if ms == [] then []
    else ProbeLines(ms[..|ms| - 1], rs[..|rs| - 1]) + ProbeBlock(ms[|ms| - 1], Classify(rs[|rs| - 1]))
  }

  /** The closing summary for the working list. */
  function Summary(working: seq<string>): seq<string> {
    [Repeat('=', 70)] + if working != [] then WorkingSummary(working) else NoModelLines()
  }

  /** The summary after at least one success: the list, then the first working model as the one to use. */
  function WorkingSummary(working: seq<string>): seq<string>
    requires working != []
  {
    ["🎉 API KEY WORKS!", "", "✅ Working models:"] + Bullets(working)
    + ["", "📋 UPDATE YOUR CODE:", "   Use model: " + working[0], Repeat('=', 70)]
  }

  /** One bullet line per working model, in order. */
  function Bullets(working: seq<string>): (r: seq<string>)
    ensures |r| == |working| && forall i :: 0 <= i < |working| ==> r[i] == "   • " + working[i]
  {
    seq(|working|, i requires 0 <= i < |working| => "   • " + working[i])
  }

  /** The advice when nothing worked. */
  function NoModelLines(): seq<string> {
    ["❌ NO WORKING MODELS", "", "This API key might need:",
     "  1. API enablement in Google Cloud Console", "  2. Billing enabled",
     "  3. Wait a few minutes after creation", Repeat('=', 70)]
  }

  /** The lines logged before the configuration file is checked. */
  function Banner(envPath: string): seq<string> {
    [Repeat('=', 70), "🔍 GEMINI API TESTER (v1beta API)", Repeat('=', 70), "", "📂 .env file: " + envPath]
  }

  /** The lines logged once the configuration file is found. */
  function FoundLines(): seq<string> {
    ["✅ .env found!", ""]
  }

  /** The lines logged once the key is known. */
  function KeyLines(apiKey: string): seq<string> {
    ["🔑 API Key: " + MaskKey(apiKey), "", "🧪 Testing with v1beta API...", ""]
  }

  /** The API key, when the file exists and `GEMINI_API_KEY` is set and non-empty. */
  function ApiKey(file: seq<string>): Option<string> {
    EnvConfig.KeyIn(EnvConfig.ParseLines(file))
  }

  /** Loads the configuration file and looks the key up. */
  method ReadKey(file: seq<string>) returns (key: Option<string>)
    ensures key == ApiKey(file)
  {
    var env := EnvConfig.LoadEnvFile(Some(file));
    key := EnvConfig.KeyIn(env);
  }

  /**
   * The probe loop: every candidate is probed, even after failures, one log
   * block per candidate, and `working` collects the successes in order.
   */
  method ProbeAll(log: LogFile, replies: seq<Reply>) returns (working: seq<string>, probed: seq<string>)
    requires |replies| == |Candidates|
    modifies log
    ensures probed == Candidates
    ensures working == Working(Candidates, replies)
    ensures log.lines == old(log.lines) + ProbeLines(Candidates, replies)
  {
    working, probed := ProbeEach(log, Candidates, replies);
  }

  /** The loop over a list of models, each with its reply. */
  method ProbeEach(log: LogFile, ms: seq<string>, rs: seq<Reply>) returns (working: seq<string>, probed: seq<string>)
    requires |ms| == |rs|
    modifies log
    ensures probed == ms
    ensures working == Working(ms, rs)
    ensures log.lines == old(log.lines) + ProbeLines(ms, rs)
  {
    working, probed := [], [];
    for i := 0 to |ms|
      invariant probed == ms[..i]
      invariant working == Working(ms[..i], rs[..i])
      invariant log.lines == old(log.lines) + ProbeLines(ms[..i], rs[..i])
    {
      ProbeStep(ms, rs, i);
      var ok := ProbeOne(log, ms[i], rs[i]);
      ConcatAssoc(old(log.lines), ProbeLines(ms[..i], rs[..i]), ProbeBlock(ms[i], Classify(rs[i])));
      probed := probed + [ms[i]];
      working := working + if ok then [ms[i]] else [];
    }
    assert ms[..|ms|] == ms && rs[..|rs|] == rs;
  }

  /** Probing one more candidate extends both the working list and the log by that candidate's part. */
  lemma ProbeStep(ms: seq<string>, rs: seq<Reply>, i: nat)
    requires |ms| == |rs| && i < |ms|
    ensures ms[..i + 1] == ms[..i] + [ms[i]]
    ensures Working(ms[..i + 1], rs[..i + 1]) == Working(ms[..i], rs[..i]) + (if Succeeds(rs[i]) then [ms[i]] else [])
    ensures ProbeLines(ms[..i + 1], rs[..i + 1]) == ProbeLines(ms[..i], rs[..i]) + ProbeBlock(ms[i], Classify(rs[i]))
  {
    assert ms[..i + 1][..i] == ms[..i];
    assert rs[..i + 1][..i] == rs[..i];
  }

  /** Probes one candidate: its reply is classified and its block logged. */
  method ProbeOne(log: LogFile, model: string, reply: Reply) returns (ok: bool)
    modifies log
    ensures ok == Succeeds(reply)
    ensures log.lines == old(log.lines) + ProbeBlock(model, Classify(reply))
  {
    var result := Classify(reply);
    LogProbe(log, model, result);
    ok := result.success;
  }

  /** Logs one candidate's block. */
  method LogProbe(log: LogFile, model: string, result: ProbeResult)
    modifies log
    ensures log.lines == old(log.lines) + ProbeBlock(model, result)
  {
    log.Log("   • " + model);
    if result.success {
      log.Log("     ✅ SUCCESS!");
      log.Log("     Response: " + Take(result.message, 80));
    } else {
      log.Log("     ❌ " + Take(result.message, 120));
    }
    log.Log("");
  }

  /** Logs the banner. */
  method LogBanner(log: LogFile, envPath: string)
    modifies log
    ensures log.lines == old(log.lines) + Banner(envPath)
  {
    log.Log(Repeat('=', 70));
    log.Log("🔍 GEMINI API TESTER (v1beta API)");
    log.Log(Repeat('=', 70));
    log.Log("");
    log.Log("📂 .env file: " + envPath);
  }

  /**
   * The whole script. `envFile` is the configuration file's lines, or None when
   * it does not exist; `replies` are the answers the three probes would get.
   * A missing file or key exits with 1 before any probe is sent; otherwise all
   * three candidates are probed and the exit code is 0 exactly when at least
   * one worked.
   */
  method RunTester(log: LogFile, envPath: string, envFile: Option<seq<string>>, replies: seq<Reply>)
    returns (exitCode: int, probed: seq<string>)
    requires |replies| == |Candidates|
    modifies log
    ensures envFile.None? ==> exitCode == 1 && probed == []
                              && log.lines == old(log.lines) + Banner(envPath) + ["❌ .env not found"]
    ensures envFile.Some? && ApiKey(envFile.value).None? ==>
              exitCode == 1 && probed == []
              && log.lines == old(log.lines) + Banner(envPath) + FoundLines() + ["❌ No API key"]
    ensures envFile.Some? && ApiKey(envFile.value).Some? ==>
              probed == Candidates
              && (exitCode == 0 <==> Working(Candidates, replies) != [])
              && (exitCode == 0 || exitCode == 1)
              && log.lines == old(log.lines) + Banner(envPath) + FoundLines()
                              + KeyLines(ApiKey(envFile.value).value)
                              + ProbeLines(Candidates, replies) + Summary(Working(Candidates, replies))
  {
    LogBanner(log, envPath);
    if envFile.None? {
      log.Log("❌ .env not found");
      return 1, [];
    }
    log.LogAll(FoundLines());
    var key := ReadKey(envFile.value);
    if key.None? {
      log.Log("❌ No API key");
      return 1, [];
    }
    var apiKey := key.value;
    log.LogAll(KeyLines(apiKey));
    var working;
    working, probed := ProbeAll(log, replies);
    LogSummary(log, working);
    exitCode := if working != [] then 0 else 1;
  }

  /** Logs the closing summary, one line per `log` call. */
  method LogSummary(log: LogFile, working: seq<string>)
    modifies log
    ensures log.lines == old(log.lines) + Summary(working)
  {
    log.Log(Repeat('=', 70));
    var rest := if working != [] then WorkingSummary(working) else NoModelLines();
    if working != [] {
      LogWorking(log, working);
    } else {
      log.LogAll(NoModelLines());
    }
    ConcatAssoc(old(log.lines), [Repeat('=', 70)], rest);
  }

  /** The success branch of the summary. */
  method LogWorking(log: LogFile, working: seq<string>)
    requires working != []
    modifies log
    ensures log.lines == old(log.lines) + WorkingSummary(working)
  {
    var head := ["🎉 API KEY WORKS!", "", "✅ Working models:"];
    var tail := ["", "📋 UPDATE YOUR CODE:", "   Use model: " + working[0], Repeat('=', 70)];
    log.LogAll(head);
    LogBullets(log, working);
    ConcatAssoc(old(log.lines), head, Bullets(working));
    log.LogAll(tail);
    ConcatAssoc(old(log.lines), head + Bullets(working), tail);
  }

  /** The loop over the working models. */
  method LogBullets(log: LogFile, working: seq<string>)
    modifies log
    ensures log.lines == old(log.lines) + Bullets(working)
  {
    for k := 0 to |working|
      invariant log.lines == old(log.lines) + Bullets(working[..k])
    {
      assert Bullets(working[..k + 1]) == Bullets(working[..k]) + ["   • " + working[k]];
      log.Log("   • " + working[k]);
    }
    assert working[..|working|] == working;
  }
}
