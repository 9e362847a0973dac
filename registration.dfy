/** `register_user_on_web`: filling the registration form for one spreadsheet row and
    classifying the attempt. The browser is abstracted to a function from what the form
    is filled with to what happened (an exception, or the page's final URL), and
    `int(time.time())` to a parameter; what remains is the default values, the
    sanitised screenshot file name and the SUCCESS/FAILURE result record. */
module Registration {
  import opened Wrappers
  import opened Exceptions
  import opened PyText

  /** One spreadsheet row: column name to cell text. */
  type UserData = map<string, string>

  /** What the form is filled with, and the page it is on. */
  datatype FormInput = FormInput(url: string, email: string, country: string, gender: string)

  /** What driving the browser gave: an exception raised by one of the browser calls
      (its `repr()` and its `str()`, and whether `launch` had already returned, so that
      the local `browser` was bound), or the page's URL once the submit click and the
      wait are over. In adk.py the `browser.close()` on the success branch lies inside
      the `try`, so an exception it raises is reported as `Raised` too. */
  datatype BrowserRun = Raised(repr: string, text: string, launched: bool) | Finished(finalUrl: string)

  /** The dict the function returns; a key it does not set is `None` here. */
  datatype RegistrationResult = RegistrationResult(
    status: string,
    message: string,
    userData: Option<UserData>,
    screenshotPath: Option<string>)

  /** `user_data.get(key, default)`. */
  function Lookup(user: UserData, key: string, default: string): string {
    if key in user then user[key] else default
  }

  const ScreenshotPrefix: string := "temp_screenshots/error_"
  const ScreenshotSuffix: string := ".png"

  /** `f"temp_screenshots/error_{timestamp}_{safe_email}.png"`. */
  function ScreenshotPath(timestamp: int, safeEmail: string): (p: string)
    ensures |p| >= |ScreenshotPrefix| + |ScreenshotSuffix|
    ensures p[..|ScreenshotPrefix|] == ScreenshotPrefix
    ensures p[|p| - |ScreenshotSuffix|..] == ScreenshotSuffix
  {
    ScreenshotPrefix + Decimal(timestamp) + "_" + safeEmail + ScreenshotSuffix
  }

  /** A separator that occurs in neither head splits a string one way only. */
  lemma SplitAtSeparator(d1: string, e1: string, d2: string, e2: string)
    requires '_' !in d1 && '_' !in d2
    requires d1 + "_" + e1 == d2 + "_" + e2
    ensures d1 == d2 && e1 == e2
  {
    var m := d1 + "_" + e1;
    assert m[|d1|] == '_' && m[|d2|] == '_';
    assert forall k :: 0 <= k < |d1| ==> m[k] == d1[k];
    assert forall k :: 0 <= k < |d2| ==> m[k] == d2[k];
    assert |d1| == |d2|;
    assert d1 == m[..|d1|] == d2;
    assert e1 == m[|d1| + 1..] == e2;
  }

  /** The path gives back the timestamp and the sanitised e-mail it was built from:
      the timestamp's digits hold no '_', so the first '_' after the prefix ends them. */
  lemma ScreenshotPathInjective(t1: int, e1: string, t2: int, e2: string)
    requires ScreenshotPath(t1, e1) == ScreenshotPath(t2, e2)
    ensures t1 == t2 && e1 == e2
  {
    var p := ScreenshotPath(t1, e1);
    var d1, d2 := Decimal(t1), Decimal(t2);
    var m1 := d1 + "_" + e1;
    var m2 := d2 + "_" + e2;
    assert p == ScreenshotPrefix + m1 + ScreenshotSuffix;
    assert p == ScreenshotPrefix + m2 + ScreenshotSuffix;
    assert m1 == p[|ScreenshotPrefix|..|p| - |ScreenshotSuffix|] == m2;
    assert '_' !in d1 && '_' !in d2;
    SplitAtSeparator(d1, e1, d2, e2);
    DecimalInjective(t1, t2);
  }

  // ---------------------------------------------------------------------------
  // adk2.py

  /** adk2.py: the form fields, each defaulting to the empty string. */
  function FormInputAdk2(user: UserData, url: string): (f: FormInput)
    ensures f.url == url
    ensures f.email == (if "Email" in user then user["Email"] else "")
    ensures f.country == (if "Country" in user then user["Country"] else "")
    ensures f.gender == (if "Gender" in user then user["Gender"] else "")
  {
    FormInput(url, Lookup(user, "Email", ""), Lookup(user, "Country", ""), Lookup(user, "Gender", ""))
  }

  /** adk2.py: `email.replace("@", "_at_").replace(".", "_dot_")`. */
  function SafeEmailAdk2(email: string): (r: string)
    ensures '@' !in r && '.' !in r
    ensures '@' !in email && '.' !in email ==> r == email
    ensures forall c :: c in email && c != '@' && c != '.' ==> c in r
  {
    ReplaceChar(ReplaceChar(email, '@', "_at_"), '.', "_dot_")
  }

  /** `repr()` of the RuntimeError adk2.py raises when the URL did not change. */
  const NoNavigationRepr: string :=
    "RuntimeError('Form submission did not result in navigation or success change.')"

  /** adk2.py's result dict. SUCCESS exactly when the browser raised nothing and the
      final URL differs from the form's URL; both results carry the original row, and
      a failure also carries the screenshot path built from the timestamp. */
  function RegisterAdk2(user: UserData, url: string, browser: FormInput -> BrowserRun, timestamp: int): (r: RegistrationResult)
    ensures var run := browser(FormInputAdk2(user, url));
      r.status == "SUCCESS" <==> run.Finished? && run.finalUrl != url
    ensures r.status == "SUCCESS" || r.status == "FAILURE"
    ensures r.userData == Some(user)
    ensures r.status == "SUCCESS" ==> r.screenshotPath == None
    ensures r.status == "FAILURE" ==>
      r.screenshotPath == Some(ScreenshotPath(timestamp, SafeEmailAdk2(Lookup(user, "Email", ""))))
  {
    var form := FormInputAdk2(user, url);
    var failed := (reason: string) => RegistrationResult(
      "FAILURE", "Submission failed: " + reason, Some(user),
      Some(ScreenshotPath(timestamp, SafeEmailAdk2(form.email))));
    match browser(form)
    case Finished(finalUrl) =>
      if finalUrl != url then
        RegistrationResult("SUCCESS", "Registration appears successful for " + form.email + ".", Some(user), None)
      else
        failed(NoNavigationRepr)
    case Raised(repr, _, _) => failed(repr)
  }

  // ---------------------------------------------------------------------------
  // adk.py

  /** adk.py: the form fields; the e-mail defaults to "UNKNOWN", the others to "". */
  function FormInputAdk(user: UserData, url: string): (f: FormInput)
    ensures f.url == url
    ensures f.email == (if "Email" in user then user["Email"] else "UNKNOWN")
    ensures f.country == (if "Country" in user then user["Country"] else "")
    ensures f.gender == (if "Gender" in user then user["Gender"] else "")
  {
    FormInput(url, Lookup(user, "Email", "UNKNOWN"), Lookup(user, "Country", ""), Lookup(user, "Gender", ""))
  }

  /** adk.py: `email.replace('@', '_at_')`; dots are kept. */
  function SafeEmailAdk(email: string): (r: string)
    ensures '@' !in r
    ensures '.' in email <==> '.' in r
    ensures '@' !in email ==> r == email
  {
    ReplaceChar(email, '@', "_at_")
  }

  /** `str()` of the Exception adk.py raises when the URL did not change. */
  const NoNavigationText: string :=
    "Submission failed. Form did not submit or navigation did not occur."

  /** The AttributeError of `browser.is_closed()`: Playwright's `Browser` offers
      `is_connected()`, and `is_closed()` belongs to `Page`. */
  const IsClosedMissing: PyError := AttributeError("'Browser' object has no attribute 'is_closed'")

  /** adk.py's function as written. Its except handler ends with an unguarded
      `if 'browser' in locals() and not browser.is_closed()`, so every failure after
      `launch` returned raises AttributeError out of the function; only a failure before
      that (no local `browser`) gives the FAILURE dict. */
  function RegisterAdkAsWritten(user: UserData, url: string, browser: FormInput -> BrowserRun, timestamp: int)
    : (r: Result<RegistrationResult, PyError>)
    ensures var run := browser(FormInputAdk(user, url));
      r.Failure? <==> (run.Raised? && run.launched) || (run.Finished? && run.finalUrl == url)
    ensures r.Failure? ==> r.error == IsClosedMissing
    ensures r.Success? ==> r.value == RegisterAdk(user, url, browser, timestamp)
  {
    match browser(FormInputAdk(user, url))
    case Finished(finalUrl) =>
      if finalUrl != url then Success(RegisterAdk(user, url, browser, timestamp)) else Failure(IsClosedMissing)
    case Raised(_, _, launched) =>
      if launched then Failure(IsClosedMissing) else Success(RegisterAdk(user, url, browser, timestamp))
  }

  /** adk.py's result dict once the browser cleanup in the except handler cannot raise
      (as in adk2.py, where it is wrapped in `try`/`except`). SUCCESS exactly when the
      browser raised nothing and the final URL differs from the form's URL, and then the
      dict has no `user_data` and no `screenshot_path`; a failure carries both. */
  function RegisterAdk(user: UserData, url: string, browser: FormInput -> BrowserRun, timestamp: int): (r: RegistrationResult)
    ensures var run := browser(FormInputAdk(user, url));
      r.status == "SUCCESS" <==> run.Finished? && run.finalUrl != url
    ensures r.status == "SUCCESS" || r.status == "FAILURE"
    ensures r.status == "SUCCESS" ==> r.userData == None && r.screenshotPath == None
    ensures r.status == "FAILURE" ==> r.userData == Some(user)
    ensures r.status == "FAILURE" ==>
      r.screenshotPath == Some(ScreenshotPath(timestamp, SafeEmailAdk(Lookup(user, "Email", "UNKNOWN"))))
  {
    var form := FormInputAdk(user, url);
    var failed := (reason: string) => RegistrationResult(
      "FAILURE", "Submission failed for " + form.email + ". Reason: " + reason, Some(user),
      Some(ScreenshotPath(timestamp, SafeEmailAdk(form.email))));
    match browser(form)
    case Finished(finalUrl) =>
      if finalUrl != url then
        RegistrationResult("SUCCESS", "Successfully submitted email: " + form.email + ".", None, None)
      else
        failed(NoNavigationText)
    case Raised(_, text, _) => failed(text)
  }

  /** A submission that leaves the page where it was: adk.py as written raises
      AttributeError from its cleanup instead of returning the FAILURE dict the
      guarded cleanup gives. */
  lemma UnchangedUrlEscapes(user: UserData, url: string, timestamp: int)
    ensures RegisterAdkAsWritten(user, url, _ => Finished(url), timestamp) == Failure(IsClosedMissing)
    ensures RegisterAdk(user, url, _ => Finished(url), timestamp).status == "FAILURE"
  {
  }

  // ---------------------------------------------------------------------------
  // Relating the two variants

  /** The defaults, seen on a row with none of the three columns, and the fact that
      the form reads no other column. */
  lemma FormDefaults(user: UserData, url: string)
    ensures FormInputAdk2(map[], url) == FormInput(url, "", "", "")
    ensures FormInputAdk(map[], url) == FormInput(url, "UNKNOWN", "", "")
    ensures var columns := map k | k in user && k in {"Email", "Country", "Gender"} :: user[k];
      FormInputAdk2(columns, url) == FormInputAdk2(user, url) && FormInputAdk(columns, url) == FormInputAdk(user, url)
  {
  }

  /** Given the same browser behaviour, both variants classify an attempt alike; they
      differ only in what the result carries. */
  lemma VariantsClassifyAlike(user: UserData, url: string, run: BrowserRun, timestamp: int)
    ensures RegisterAdk(user, url, _ => run, timestamp).status == RegisterAdk2(user, url, _ => run, timestamp).status
  {
  }

  /** A row without an e-mail: adk2.py names the screenshot after the empty string
      ("temp_screenshots/error_<timestamp>_.png"), adk.py after the word UNKNOWN. */
  lemma MissingEmailScreenshots(user: UserData, url: string, run: BrowserRun, timestamp: int)
    requires "Email" !in user
    requires run.Raised? || run.finalUrl == url
    ensures RegisterAdk2(user, url, _ => run, timestamp).screenshotPath == Some(ScreenshotPath(timestamp, ""))
    ensures RegisterAdk(user, url, _ => run, timestamp).screenshotPath == Some(ScreenshotPath(timestamp, "UNKNOWN"))
  {
    assert SafeEmailAdk2("") == "";
    assert '@' !in "UNKNOWN";
    assert SafeEmailAdk("UNKNOWN") == "UNKNOWN";
  }
}
