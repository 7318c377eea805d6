/**
 * `load_env_file`, identical in test_gemini_api.py and list_gemini_models.py:
 * reads a `KEY=VALUE` configuration file into a dictionary.
 */
module EnvConfig {
  import opened Wrappers
  import opened Text

  /** The line after strip(): non-empty, not a comment, and containing `=`. */
  predicate IsEntryLine(t: string) {
    t != [] && t[0] != '#' && '=' in t
  }

  /**
   * The pair one raw line contributes: the stripped line split at its first `=`,
   * then key and value stripped again.
   */
  function ParseLine(raw: string): (r: Option<(string, string)>)
    ensures r.Some? <==> IsEntryLine(Trim(raw))
  {
    var t := Trim(raw);
    if IsEntryLine(t) then
      var k := BeforeFirst(t, '=');
      Some((Trim(k), Trim(t[|k| + 1..])))
    else None
  }

  /**
   * A kept line is split at its FIRST `=`, so the value may itself contain `=`
   * while the key never does; key and value carry no surrounding whitespace.
   */
  lemma ParseLineSplitsAtFirstEquals(raw: string)
    requires IsEntryLine(Trim(raw))
    ensures var t := Trim(raw);
      exists i :: 0 <= i < |t| && t[i] == '=' && '=' !in t[..i]
                  && ParseLine(raw).value == (Trim(t[..i]), Trim(t[i + 1..]))
    ensures '=' !in ParseLine(raw).value.0
    ensures IsTrimmed(ParseLine(raw).value.0) && IsTrimmed(ParseLine(raw).value.1)
  {
    var t := Trim(raw);
    var k := BeforeFirst(t, '=');
    assert t[|k|] == '=' && t[..|k|] == k;
  }

  /** What each line contributes, in file order. */
  function ParseAll(lines: seq<string>): (r: seq<Option<(string, string)>>)
    ensures |r| == |lines| && forall i :: 0 <= i < |lines| ==> r[i] == ParseLine(lines[i])
  {
    seq(|lines|, i requires 0 <= i < |lines| => ParseLine(lines[i]))
  }

  /** The dictionary built from the contributions in order; a later key overwrites. */
  function Collect(entries: seq<Option<(string, string)>>): map<string, string>
    decreases |entries|
  {
    if entries == [] then map[]
    else
      var env := Collect(entries[..|entries| - 1]);
      match entries[|entries| - 1]
      case None => env
      case Some(kv) => env[kv.0 := kv.1]
  }

  /** The dictionary `load_env_file` returns for an existing file with these lines. */
  function ParseLines(lines: seq<string>): map<string, string> {
    Collect(ParseAll(lines))
  }

  /** Contribution i sets key k. */
  predicate Sets(entries: seq<Option<(string, string)>>, i: int, k: string)
    requires 0 <= i < |entries|
  {
    entries[i].Some? && entries[i].value.0 == k
  }

  /** Contribution i is the last one that sets k. */
  predicate LastSets(entries: seq<Option<(string, string)>>, i: int, k: string)
    requires 0 <= i < |entries|
  {
    Sets(entries, i, k) && forall j :: i < j < |entries| ==> !Sets(entries, j, k)
  }

  /** A key is in the dictionary exactly when some contribution sets it. */
  lemma {:induction false} CollectKeys(entries: seq<Option<(string, string)>>, k: string)
    ensures k in Collect(entries) <==> exists i :: 0 <= i < |entries| && Sets(entries, i, k)
    decreases |entries|
  {
    if entries != [] {
      var init := entries[..|entries| - 1];
      var n := |entries| - 1;
      CollectKeys(init, k);
      if !Sets(entries, n, k) {
        if exists i :: 0 <= i < |entries| && Sets(entries, i, k) {
          var i :| 0 <= i < |entries| && Sets(entries, i, k);
          assert Sets(init, i, k);
        }
        if k in Collect(init) {
          var i :| 0 <= i < n && Sets(init, i, k);
          assert Sets(entries, i, k);
        }
      }
    }
  }

  /** The value of a key is the one given by the LAST contribution that sets it. */
  lemma {:induction false} CollectLastWins(entries: seq<Option<(string, string)>>, i: nat, k: string)
    requires i < |entries| && LastSets(entries, i, k)
    ensures k in Collect(entries) && Collect(entries)[k] == entries[i].value.1
    decreases |entries|
  {
    var init := entries[..|entries| - 1];
    var n := |entries| - 1;
    if i < n {
      assert LastSets(init, i, k) by {
        forall j | i < j < n ensures !Sets(init, j, k) {
          assert !Sets(entries, j, k);
        }
      }
      CollectLastWins(init, i, k);
      assert !Sets(entries, n, k);
    }
  }

  /**
   * `load_env_file(env_path)`: `file` is the file's lines, or None when the path
   * does not exist, which yields an empty dictionary rather than an error.
   */
  method LoadEnvFile(file: Option<seq<string>>) returns (env: map<string, string>)
    ensures file.None? ==> env == map[]
    ensures file.Some? ==> env == ParseLines(file.value)
  {
    env := map[];
    if file.Some? {
      var lines := file.value;
      var i := 0;
      while i < |lines|
        invariant 0 <= i <= |lines|
        invariant env == Collect(ParseAll(lines)[..i])
      {
        assert ParseAll(lines)[..i + 1][..i] == ParseAll(lines)[..i];
        var kv := ParseLine(lines[i]);
        if kv.Some? {
          env := env[kv.value.0 := kv.value.1];
        }
        i := i + 1;
      }
      assert ParseAll(lines)[..|lines|] == ParseAll(lines);
    }
  }

  /** `env.get('GEMINI_API_KEY')` in both scripts, where an empty value counts as missing (`if not api_key`). */
  function KeyIn(env: map<string, string>): (k: Option<string>)
    ensures k.Some? <==> "GEMINI_API_KEY" in env && env["GEMINI_API_KEY"] != ""
    ensures k.Some? ==> k.value == env["GEMINI_API_KEY"]
  {
    if "GEMINI_API_KEY" in env && env["GEMINI_API_KEY"] != "" then Some(env["GEMINI_API_KEY"]) else None
  }
}
