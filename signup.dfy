/**
 * The sign-up form: the client-side checks run before the form is posted, in
 * the order empty fields, e-mail shape, password length, and the page chosen
 * after a successful registration.
 */
module Signup {
  import opened Wrappers
  import opened Text

  const FillAll := "Please fill in all fields"
  const BadEmail := "Please enter a valid email address"
  const ShortPassword := "Password must be at least 6 characters long"
  const MinPassword := 6

  // ---------------------------------------------------------------- e-mail shape

  /** A character the class `[^\s@]` admits. */
  predicate Plain(ch: char) {
    !IsSpace(ch) && ch != '@'
  }

  predicate AllPlain(s: string) {
    forall i :: 0 <= i < |s| ==> Plain(s[i])
  }

  /**
   * `^[^\s@]+@[^\s@]+\.[^\s@]+$`: the address splits as local part, `@`,
   * domain text, `.`, domain text, each part non-empty and made of plain
   * characters (a plain character may itself be a dot).
   */
  ghost predicate MatchesEmailPattern(e: string) {
    exists i, k :: 0 < i && i + 1 < k < |e| - 1 && EmailSplit(e, i, k)
  }

  /** The cut points of one match: the `@` at i and the separating `.` at k. */
  predicate EmailSplit(e: string, i: nat, k: nat)
    requires 0 < i && i + 1 < k < |e| - 1
  {
    AllPlain(e[..i]) && e[i] == '@' && AllPlain(e[i + 1..k]) && e[k] == '.' && AllPlain(e[k + 1..])
  }

  /**
   * The check as a scan: no whitespace anywhere, the first `@` is not the first
   * character and no other `@` follows it, and a dot sits strictly inside the
   * domain.
   */
  function IsEmail(e: string): bool {
    (forall j :: 0 <= j < |e| ==> !IsSpace(e[j]))
    && match IndexOf(e, '@')
       case None => false
       case Some(i) => 0 < i && i + 2 < |e| && '@' !in e[i + 1..] && '.' in e[i + 2..|e| - 1]
  }

  /** An address the scan accepts has a match of the pattern. */
  lemma IsEmailHasSplit(e: string)
    requires IsEmail(e)
    ensures MatchesEmailPattern(e)
  {
    var i := IndexOf(e, '@').value;
    var d := e[i + 2..|e| - 1];
    var m :| 0 <= m < |d| && d[m] == '.';
    var k := i + 2 + m;
    assert e[k] == '.';
    assert AllPlain(e[..i]);
    assert forall j :: i + 1 <= j < |e| ==> e[j] in e[i + 1..];
    assert AllPlain(e[i + 1..k]) && AllPlain(e[k + 1..]);
    assert EmailSplit(e, i, k);
  }

  /** In a match the `@` at i is the first one, and no other follows it. */
  lemma SplitAtFirst(e: string, i: nat, k: nat)
    requires 0 < i && i + 1 < k < |e| - 1 && EmailSplit(e, i, k)
    ensures IndexOf(e, '@') == Some(i) && '@' !in e[i + 1..]
  {
    assert forall j :: 0 <= j < i ==> e[j] == e[..i][j];
    forall j | i + 1 <= j < |e| ensures e[j] != '@' {
      if j < k {
        assert e[j] == e[i + 1..k][j - i - 1];
      } else if j > k {
        assert e[j] == e[k + 1..][j - k - 1];
      }
    }
    var r := IndexOf(e, '@');
    assert '@' in e[..i + 1];
    assert '@' in e by { assert e[i] == '@'; }
    assert r.value >= i by {
      assert forall j :: 0 <= j < i ==> e[j] != '@';
    }
  }

  /** A match of the pattern is accepted by the scan. */
  lemma SplitIsEmail(e: string)
    requires MatchesEmailPattern(e)
    ensures IsEmail(e)
  {
    var i, k :| 0 < i && i + 1 < k < |e| - 1 && EmailSplit(e, i, k);
    SplitAtFirst(e, i, k);
    forall j | 0 <= j < |e| ensures !IsSpace(e[j]) {
      if j < i {
        assert e[j] == e[..i][j];
      } else if i < j < k {
        assert e[j] == e[i + 1..k][j - i - 1];
      } else if j > k {
        assert e[j] == e[k + 1..][j - k - 1];
      }
    }
    assert e[i + 2..|e| - 1][k - i - 2] == '.';
  }

  /** The scan accepts exactly the addresses the pattern matches. */
  lemma IsEmailMatchesPattern(e: string)
    ensures IsEmail(e) <==> MatchesEmailPattern(e)
  {
    if IsEmail(e) {
      IsEmailHasSplit(e);
    }
    if MatchesEmailPattern(e) {
      SplitIsEmail(e);
    }
  }

  // ---------------------------------------------------------------- the form

  datatype Outcome = Rejected(message: string) | Post(name: string, email: string, password: string)

  /** The display name: the trimmed first and last names joined by a space, trimmed again. */
  function FullName(first: string, last: string): string {
    Trim(Trim(first) + " " + Trim(last))
  }

  /** The submit handler's checks on the trimmed values, first failure reported; nothing is posted unless all pass. */
  function Check(name: string, email: string, password: string): Outcome {
    if name == "" || email == "" || password == "" then Rejected(FillAll)
    else if !IsEmail(email) then Rejected(BadEmail)
    else if |password| < MinPassword then Rejected(ShortPassword)
    else Post(name, email, password)
  }

  /** The submit handler: the name fields are joined and the address trimmed before the checks. */
  function Submit(first: string, last: string, emailField: string, password: string): Outcome {
    Check(FullName(first, last), Trim(emailField), password)
  }

  /** The checks pass exactly when the name is given, the scan accepts the address and the password is long enough. */
  lemma CheckPosts(name: string, email: string, password: string)
    ensures Check(name, email, password).Post? <==> name != "" && IsEmail(email) && |password| >= MinPassword
    ensures Check(name, email, password).Post? ==> Check(name, email, password) == Post(name, email, password)
  {
    if IsEmail(email) {
      var i := IndexOf(email, '@').value;
      assert i < |email|;
    }
  }

  /** Two trimmed parts joined by a space are all whitespace exactly when both parts are empty. */
  lemma JoinedAllSpace(f: string, l: string)
    requires IsTrimmed(f) && IsTrimmed(l)
    ensures AllSpace(f + " " + l) <==> f == "" && l == ""
  {
    var s := f + " " + l;
    if f != "" {
      assert s[0] == f[0];
    } else if l != "" {
      assert s[|s| - 1] == l[|l| - 1];
    } else {
      assert s == " ";
    }
  }

  /** The name is empty exactly when both name fields are blank. */
  lemma FullNameEmpty(first: string, last: string)
    ensures FullName(first, last) == "" <==> Trim(first) == "" && Trim(last) == ""
  {
    var f, l := Trim(first), Trim(last);
    TrimEmptyIffAllSpace(f + " " + l);
    JoinedAllSpace(f, l);
  }

  /**
   * The form is posted exactly when some name is given, the e-mail matches the
   * pattern and the password has at least six characters; then the posted
   * fields are the trimmed name and address and the password as typed.
   */
  lemma SubmitAccepts(first: string, last: string, emailField: string, password: string)
    ensures Submit(first, last, emailField, password).Post? <==>
      (Trim(first) != "" || Trim(last) != "") && MatchesEmailPattern(Trim(emailField)) && |password| >= MinPassword
    ensures Submit(first, last, emailField, password).Post? ==>
      Submit(first, last, emailField, password) == Post(FullName(first, last), Trim(emailField), password)
  {
    FullNameEmpty(first, last);
    IsEmailMatchesPattern(Trim(emailField));
    CheckPosts(FullName(first, last), Trim(emailField), password);
  }

  /** The checks run in order: an empty field wins over a bad address, which wins over a short password. */
  lemma SubmitOrder(first: string, last: string, emailField: string, password: string)
    ensures (Trim(first) == "" && Trim(last) == "") || Trim(emailField) == "" || password == "" ==>
      Submit(first, last, emailField, password) == Rejected(FillAll)
    ensures FullName(first, last) != "" && password != "" && Trim(emailField) != "" && !MatchesEmailPattern(Trim(emailField)) ==>
      Submit(first, last, emailField, password) == Rejected(BadEmail)
    ensures Submit(first, last, emailField, password) == Rejected(ShortPassword) ==>
      0 < |password| < MinPassword && MatchesEmailPattern(Trim(emailField))
  {
    FullNameEmpty(first, last);
    IsEmailMatchesPattern(Trim(emailField));
  }

  // ---------------------------------------------------------------- after the response

  datatype Reply = ShowError(message: string) | Redirect(page: string) | Stay

  /**
   * The reply to the sign-up request: a failing status shows the server's
   * message or a fallback; a success names the next page by role.
   */
  function AfterResponse(statusOk: bool, dataOk: bool, msg: Option<string>, role: Option<string>): Reply {
    if !statusOk then ShowError(if msg.Some? && msg.value != "" then msg.value else "Signup failed")
    else if !dataOk then Stay
    else if role == Some("admin") then Redirect("./admin-dashboard.html")
    else Redirect("./dashboard.html")
  }

  /** Only the admin role reaches the admin dashboard; an error always carries a non-empty message. */
  lemma RedirectByRole(statusOk: bool, dataOk: bool, msg: Option<string>, role: Option<string>)
    ensures AfterResponse(statusOk, dataOk, msg, role) == Redirect("./admin-dashboard.html") <==>
      statusOk && dataOk && role == Some("admin")
    ensures AfterResponse(statusOk, dataOk, msg, role) == Redirect("./dashboard.html") <==>
      statusOk && dataOk && role != Some("admin")
    ensures AfterResponse(statusOk, dataOk, msg, role).ShowError? <==> !statusOk
    ensures AfterResponse(statusOk, dataOk, msg, role).ShowError? ==> AfterResponse(statusOk, dataOk, msg, role).message != ""
  {
  }
}
