/**
 * One renewal run for one account: the chain of steps `run` drives through
 * the browser, the ordered-fallback click helper `try_click`, the screenshot
 * helper `shot`, and the exception handler that ends a failed run.
 *
 * A raised exception is modelled as a `Fault` value: the chain stops at the
 * first one (`Step.Stop`), and `Run` turns it into a failed outcome after the
 * handler's screenshot and notification.
 */
module Renewal {
  import opened Wrappers
  import opened Accounts
  import opened Browsing
  import opened Notify

  /** The steps of `run`, in the order the source numbers them, then the final screenshot. */
  datatype Stage = Open | Cookie | LogIn | Credentials | Captcha | Submit | Manage | Restore | Start | Finish

  /** Steps that raise when their locator set does not resolve. */
  predicate Mandatory(st: Stage) {
    st == LogIn || st == Credentials || st == Submit || st == Manage
  }

  /** Steps whose failure to resolve is logged and skipped. */
  predicate Optional(st: Stage) {
    st == Cookie || st == Captcha || st == Restore || st == Start
  }

  /** The locator set of each step, most preferred first (for `Credentials`, the email field). */
  function Locators(st: Stage): seq<Selector> {
    match st
    case Cookie => [
      "//button[contains(text(),'Accept all')]",
      "//button[contains(text(),'Accept All')]",
      "//button[contains(text(),'accept')]",
      "button.accept-all",
      "[data-testid='accept-all']"]
    case LogIn => [
      "//a[normalize-space()='Log In']",
      "//button[normalize-space()='Log In']",
      "a[href*='login']",
      "//a[contains(text(),'Log In')]",
      "//a[contains(text(),'Login')]"]
    case Credentials => [
      "#email", "input[name='email']", "input[type='email']",
      "input[placeholder*='mail']", "input[type='text']"]
    case Submit => [
      "button.submit-btn",
      "button[type='submit']",
      "//button[contains(text(),'Log In')]",
      "//button[contains(text(),'Login')]",
      "//button[contains(text(),'Sign In')]"]
    case Manage => [
      "//button[contains(text(),'Manage')]",
      "//a[contains(text(),'Manage')]",
      "a[href*='manage']",
      ".manage-btn"]
    case Restore => [
      "//button[contains(text(),'Start / Restore')]",
      "//button[contains(text(),'Restore')]",
      "//a[contains(text(),'Start / Restore')]",
      "//a[contains(text(),'Restore')]"]
    case Start => [
      "//button[normalize-space()='Start']",
      "//a[normalize-space()='Start']",
      "//button[contains(text(),'Start') and not(contains(text(),'Restore'))]"]
    case _ => []
  }

  /** The password field's locator set; it shares the email field's timeout. */
  const PasswordSelectors: seq<Selector> := ["#password", "input[name='password']", "input[type='password']"]

  /** The wait, in seconds, given to every selector of a step's locator set. */
  function Timeout(st: Stage): nat {
    match st
    case Cookie => 8
    case LogIn => 10
    case Credentials => 8
    case Submit => 10
    case Manage => 15
    case Restore => 8
    case Start => 8
    case _ => 0
  }

  /** The error frame a mandatory step saves before it raises. */
  function ErrorShot(st: Stage): Shot
    requires Mandatory(st)
  {
    match st
    case LogIn => NoLoginButton
    case Credentials => NoForm
    case Submit => NoSubmit
    case Manage => NoManage
  }

  /** The exceptions a run can raise. */
  datatype Fault =
    | OpenFailed              // opening the home page raised
    | Unresolved(stage: Stage) // a mandatory step found none of its selectors
    | TypeFailed              // typing the email into the field found raised
    | UrlFailed               // reading the current URL for the log raised
    | ShotFailed(shot: Shot)  // saving a screenshot raised

  /** The state after one step: carry on, or stop with the exception raised. */
  datatype Step = Go(s: Session) | Stop(fault: Fault, s: Session) {
    predicate IsFailure() { Stop? }
    function PropagateFailure(): Step requires Stop? { this }
    function Extract(): Session requires Go? { s }
  }

  /** The step value of a method that returned `fault` and left the browser in `s`. */
  function Halted(fault: Option<Fault>, s: Session): Step {
    if fault.None? then Go(s) else Stop(fault.value, s)
  }

  /**
   * The renewal object's constructor: parse the entry, which raises on a
   * malformed one, then create the artifacts directory, which raises when
   * `os.makedirs` does.
   */
  function Construct(entry: string, sc: Script): (r: Result<Account, InitError>)
    ensures r.Err? <==> ':' !in Strip(entry) || sc.dirFails
    ensures ':' !in Strip(entry) ==> r == Err(Malformed(entry))
    ensures ':' in Strip(entry) && sc.dirFails ==> r == Err(NoArtifactsDir)
    ensures r.Ok? ==> r == ParseAccount(entry)
  {
    match ParseAccount(entry)
    case Err(e) => Err(e)
    case Ok(acc) => if sc.dirFails then Err(NoArtifactsDir) else Ok(acc)
  }

  const ArtifactsDir: string := "artifacts"

  /**
   * Where `shot` writes a screenshot. The source joins the file name to the
   * absolute `artifacts` directory beside the script; the model keeps only
   * the part below the script's directory, which is the same for every run.
   */
  function Path(shot: Shot): string {
    ArtifactsDir + "/" + FileName(shot)
  }

  /** `shot(sb, name)`: save the screenshot; raises when the browser does. */
  function Save(sc: Script, s: Session, shot: Shot): Step {
    if sc.shotFails(shot) then Stop(ShotFailed(shot), s) else Go(s.(saved := s.saved + [shot]))
  }

  /** A mandatory step that did not resolve: save its error frame, then raise. */
  function Halt(sc: Script, s: Session, st: Stage): Step
    requires Mandatory(st)
  {
    if sc.shotFails(ErrorShot(st)) then Stop(ShotFailed(ErrorShot(st)), s)
    else Stop(Unresolved(st), s.(saved := s.saved + [ErrorShot(st)]))
  }

  /** The current URL is read for the log after a step that went on; raises when the browser does. */
  function ReadUrl(sc: Script, s: Session): Step {
    if sc.urlFails(s.acted) then Stop(UrlFailed, s) else Go(s)
  }

  /** A selector resolves for a click or a type: it becomes visible and the action goes through. */
  function Hits(sc: Script, h: seq<Act>, timeout: nat): Selector -> bool {
    sel => sc.visible(h, sel, timeout) && sc.accepts(h, sel)
  }

  /** A selector becomes visible within the timeout. */
  function Shows(sc: Script, h: seq<Act>, timeout: nat): Selector -> bool {
    sel => sc.visible(h, sel, timeout)
  }

  /** `try_click`: whether some selector was clicked, and the session afterwards. */
  function ClickFirst(sc: Script, s: Session, sels: seq<Selector>, timeout: nat): (bool, Session) {
    var r := First(Hits(sc, s.acted, timeout), sels);
    (r.Some?,
     s.(acted := s.acted + (if r.Some? then [Act.Click(sels[r.value])] else []),
        waited := s.waited + TriedUpTo(sels, r)))
  }

  /** The email loop: the first visible selector, if any, and the session afterwards. */
  function FindVisible(sc: Script, s: Session, sels: seq<Selector>, timeout: nat): (Option<Selector>, Session) {
    var r := First(Shows(sc, s.acted, timeout), sels);
    (if r.Some? then Some(sels[r.value]) else None, s.(waited := s.waited + TriedUpTo(sels, r)))
  }

  /** The password loop: type into the first selector that is visible and accepts the text. */
  function TypeFirst(sc: Script, s: Session, sels: seq<Selector>, timeout: nat, text: string): Session {
    var r := First(Hits(sc, s.acted, timeout), sels);
    s.(acted := s.acted + (if r.Some? then [Act.Type(sels[r.value], text)] else []),
       waited := s.waited + TriedUpTo(sels, r))
  }

  /** What one step of `run` does to the session, and whether it raises. */
  function RunStage(st: Stage, sc: Script, acc: Account, s: Session): Step {
    match st
    case Open =>
      if sc.opens(s.acted) then Save(sc, s.(acted := s.acted + [Visit]), Homepage)
      else Stop(OpenFailed, s)
    case Cookie =>
      Save(sc, ClickFirst(sc, s, Locators(Cookie), Timeout(Cookie)).1, AfterCookie)
    case LogIn =>
      var (ok, t) := ClickFirst(sc, s, Locators(LogIn), Timeout(LogIn));
      if !ok then Halt(sc, t, LogIn)
      else
        var u :- Save(sc, t, LoginPage);
        ReadUrl(sc, u)
    case Credentials =>
      var (field, t) := FindVisible(sc, s, Locators(Credentials), Timeout(Credentials));
      if field.None? then Halt(sc, t, Credentials)
      else if !sc.accepts(t.acted, field.value) then Stop(TypeFailed, t)
      else
        var u := t.(acted := t.acted + [Act.Type(field.value, acc.email)]);
        Save(sc, TypeFirst(sc, u, PasswordSelectors, Timeout(Credentials), acc.password), AfterInput)
    case Captcha =>
      Save(sc, if sc.solves(s.acted) then s.(acted := s.acted + [Solve]) else s, AfterCaptcha)
    case Submit =>
      var (ok, t) := ClickFirst(sc, s, Locators(Submit), Timeout(Submit));
      if !ok then Halt(sc, t, Submit)
      else
        var u :- Save(sc, t, AfterLogin);
        ReadUrl(sc, u)
    case Manage =>
      var (ok, t) := ClickFirst(sc, s, Locators(Manage), Timeout(Manage));
      if ok then Save(sc, t, AfterManage) else Halt(sc, t, Manage)
    case Restore =>
      var (ok, t) := ClickFirst(sc, s, Locators(Restore), Timeout(Restore));
      if ok then Go(t) else Save(sc, t, NoRestore)
    case Start =>
      Go(ClickFirst(sc, s, Locators(Start), Timeout(Start)).1)
    case Finish =>
      Save(sc, s, Final)
  }

  /** The position of a step in `run`'s `try`. */
  function Index(st: Stage): (n: nat)
    ensures n <= 9
  {
    match st
    case Open => 0
    case Cookie => 1
    case LogIn => 2
    case Credentials => 3
    case Captcha => 4
    case Submit => 5
    case Manage => 6
    case Restore => 7
    case Start => 8
    case Finish => 9
  }

  /** The step taken after `st`. */
  function Next(st: Stage): (n: Stage)
    requires st != Finish
    ensures Index(n) == Index(st) + 1
  {
    match st
    case Open => Cookie
    case Cookie => LogIn
    case LogIn => Credentials
    case Credentials => Captcha
    case Captcha => Submit
    case Submit => Manage
    case Manage => Restore
    case Restore => Start
    case Start => Finish
  }

  /** The steps from `st` on, stopping at the first exception. */
  function ChainFrom(st: Stage, sc: Script, acc: Account, s: Session): Step
    decreases 9 - Index(st)
  {
    var t :- RunStage(st, sc, acc, s);
    if st == Finish then Go(t) else ChainFrom(Next(st), sc, acc, t)
  }

  /** The body of `run`'s `try`: every step from opening the home page to the final screenshot. */
  function Chain(sc: Script, acc: Account, s0: Session): Step {
    ChainFrom(Open, sc, acc, s0)
  }

  /** The run's result as the batch sees it: it returned, or it raised this fault. */
  datatype Outcome = Renewed | Failed(fault: Fault)

  /** A call of `send_tg`: the message and the screenshot offered as photo. */
  datatype Notice = Notice(text: string, photo: Shot)

  /** Everything a run leaves behind. */
  datatype Report = Report(outcome: Outcome, session: Session, notice: Option<Notice>)

  function SuccessText(email: string): string {
    "✅ " + email + " 保活完成"
  }

  /** The exception text; the browser library's own messages are not modelled. */
  function Reason(f: Fault): string {
    match f
    case Unresolved(LogIn) => "未找到 Log In 按钮"
    case Unresolved(Credentials) => "未找到登录表单，查看截图确认页面状态"
    case Unresolved(Submit) => "未找到登录提交按钮"
    case Unresolved(Manage) => "未找到 Manage 按钮，登录可能失败"
    case _ => "browser error"
  }

  function FailureText(email: string, f: Fault): string {
    "❌ " + email + " 保活失败: " + Reason(f)
  }

  /**
   * `run`: the chain, then on success the success notification with the final
   * screenshot; on an exception the handler saves `error.png`, notifies the
   * failure with it and re-raises. If saving `error.png` itself raises, that
   * exception replaces the first one and nothing is sent.
   */
  function RunReport(sc: Script, acc: Account, s0: Session): Report {
    match Chain(sc, acc, s0)
    case Go(s) => Report(Renewed, s, Some(Notice(SuccessText(acc.email), Final)))
    case Stop(f, s) =>
      if sc.shotFails(ErrorFrame) then Report(Failed(ShotFailed(ErrorFrame)), s, None)
      else Report(Failed(f), s.(saved := s.saved + [ErrorFrame]), Some(Notice(FailureText(acc.email, f), ErrorFrame)))
  }

  /** The posts the notifier makes for a run's report. */
  function Posts(cfg: TgConfig, r: Report): seq<Request> {
    match r.notice
    case None => []
    case Some(n) => AsSeq(Delivery(cfg, n.text, Some(Path(n.photo)), n.photo in r.session.saved))
  }

  /** `shot(sb, name)`: the saved file's path, or `None` when saving raised. */
  method TakeShot(sb: Browser, shot: Shot) returns (path: Option<string>)
    modifies sb
    ensures path == if sb.script.shotFails(shot) then None else Some(Path(shot))
    ensures Save(sb.script, old(sb.State()), shot) == Halted(if path.None? then Some(ShotFailed(shot)) else None, sb.State())
  {
    var ok := sb.SaveScreenshot(shot);
    path := if ok then Some(Path(shot)) else None;
  }

  /**
   * `try_click`: wait for each selector in turn and click it; the first one
   * for which both go through ends the search.
   */
  method TryClick(sb: Browser, sels: seq<Selector>, timeout: nat) returns (clicked: bool)
    modifies sb
    ensures (clicked, sb.State()) == ClickFirst(sb.script, old(sb.State()), sels, timeout)
  {
    ghost var hits := Hits(sb.script, sb.acted, timeout);
    var i := 0;
    while i < |sels|
      invariant 0 <= i <= |sels|
      invariant sb.State() == old(sb.State()).(waited := old(sb.waited) + sels[..i])
      invariant forall j :: 0 <= j < i ==> !hits(sels[j])
    {
      var seen := sb.WaitVisible(sels[i], timeout);
      if seen {
        var done := sb.Click(sels[i]);
        if done {
          assert First(hits, sels) == Some(i);
          assert sels[..i] + [sels[i]] == sels[..i + 1];
          assert hits == Hits(sb.script, old(sb.State()).acted, timeout);
          assert sb.State() == ClickFirst(sb.script, old(sb.State()), sels, timeout).1;
          return true;
        }
      }
      i := i + 1;
    }
    assert sels[..i] == sels;
    assert hits == Hits(sb.script, old(sb.State()).acted, timeout);
    assert First(hits, sels) == None;
    assert sb.State() == ClickFirst(sb.script, old(sb.State()), sels, timeout).1;
    return false;
  }

  /** The email loop of `run`: the first selector of the email locator set that becomes visible. */
  method FindEmailField(sb: Browser, sels: seq<Selector>, timeout: nat) returns (field: Option<Selector>)
    modifies sb
    ensures (field, sb.State()) == FindVisible(sb.script, old(sb.State()), sels, timeout)
  {
    ghost var shows := Shows(sb.script, sb.acted, timeout);
    var i := 0;
    while i < |sels|
      invariant 0 <= i <= |sels|
      invariant sb.State() == old(sb.State()).(waited := old(sb.waited) + sels[..i])
      invariant forall j :: 0 <= j < i ==> !shows(sels[j])
    {
      var seen := sb.WaitVisible(sels[i], timeout);
      if seen {
        assert First(shows, sels) == Some(i);
        assert sels[..i] + [sels[i]] == sels[..i + 1];
        assert shows == Shows(sb.script, old(sb.State()).acted, timeout);
        assert sb.State() == FindVisible(sb.script, old(sb.State()), sels, timeout).1;
        return Some(sels[i]);
      }
      i := i + 1;
    }
    assert sels[..i] == sels;
    return None;
  }

  /**
   * The password loop of `run`: type into the first password selector that is
   * visible and accepts the text; when there is none, carry on silently.
   */
  method TypePassword(sb: Browser, sels: seq<Selector>, timeout: nat, password: string)
    modifies sb
    ensures sb.State() == TypeFirst(sb.script, old(sb.State()), sels, timeout, password)
  {
    ghost var hits := Hits(sb.script, sb.acted, timeout);
    var i := 0;
    while i < |sels|
      invariant 0 <= i <= |sels|
      invariant sb.State() == old(sb.State()).(waited := old(sb.waited) + sels[..i])
      invariant forall j :: 0 <= j < i ==> !hits(sels[j])
    {
      var seen := sb.WaitVisible(sels[i], timeout);
      if seen {
        var typed := sb.Type(sels[i], password);
        if typed {
          assert First(hits, sels) == Some(i);
          assert sels[..i] + [sels[i]] == sels[..i + 1];
          return;
        }
      }
      i := i + 1;
    }
    assert sels[..i] == sels;
  }

  /** Step 1: clear the cookies, open the home page, save `01_homepage.png`. */
  method OpenHome(sb: Browser, acc: Account) returns (fault: Option<Fault>)
    modifies sb
    ensures RunStage(Open, sb.script, acc, old(sb.State())) == Halted(fault, sb.State())
  {
    var ok := sb.Open();
    if !ok {
      return Some(OpenFailed);
    }
    var path := TakeShot(sb, Homepage);
    fault := if path.None? then Some(ShotFailed(Homepage)) else None;
  }

  /** Step 2: accept the cookie banner when there is one; save `02_after_cookie.png` either way. */
  method AcceptCookies(sb: Browser, acc: Account) returns (fault: Option<Fault>)
    modifies sb
    ensures RunStage(Cookie, sb.script, acc, old(sb.State())) == Halted(fault, sb.State())
  {
    var accepted := TryClick(sb, Locators(Cookie), Timeout(Cookie));
    var path := TakeShot(sb, AfterCookie);
    fault := if path.None? then Some(ShotFailed(AfterCookie)) else None;
  }

  /**
   * Steps 3, 6 and 7: click the first resolving selector of a mandatory step
   * and save its progress frame, or save its error frame and raise. After
   * steps 3 and 6 the current URL is read for the log.
   */
  method ClickMandatory(sb: Browser, acc: Account, st: Stage, progress: Shot) returns (fault: Option<Fault>)
    requires st == LogIn || st == Submit || st == Manage
    requires progress == (match st case LogIn => LoginPage case Submit => AfterLogin case _ => AfterManage)
    modifies sb
    ensures RunStage(st, sb.script, acc, old(sb.State())) == Halted(fault, sb.State())
  {
    var clicked := TryClick(sb, Locators(st), Timeout(st));
    if !clicked {
      var path := TakeShot(sb, ErrorShot(st));
      if path.None? {
        return Some(ShotFailed(ErrorShot(st)));
      }
      return Some(Unresolved(st));
    }
    var path := TakeShot(sb, progress);
    if path.None? {
      return Some(ShotFailed(progress));
    }
    if st != Manage {
      var ok := sb.CurrentUrl();
      if !ok {
        return Some(UrlFailed);
      }
    }
    fault := None;
  }

  /**
   * Step 4: find the email field, type the email, type the password into the
   * first password field that takes it, save `04_after_input.png`.
   */
  method EnterCredentials(sb: Browser, acc: Account) returns (fault: Option<Fault>)
    modifies sb
    ensures RunStage(Credentials, sb.script, acc, old(sb.State())) == Halted(fault, sb.State())
  {
    var emailField := FindEmailField(sb, Locators(Credentials), Timeout(Credentials));
    if emailField.None? {
      var path := TakeShot(sb, NoForm);
      if path.None? {
        return Some(ShotFailed(NoForm));
      }
      return Some(Unresolved(Credentials));
    }
    var ok := sb.Type(emailField.value, acc.email);
    if !ok {
      return Some(TypeFailed);
    }
    TypePassword(sb, PasswordSelectors, Timeout(Credentials), acc.password);
    var path := TakeShot(sb, AfterInput);
    fault := if path.None? then Some(ShotFailed(AfterInput)) else None;
  }

  /** Step 5: the two captcha calls, any exception swallowed; save `05_after_captcha.png`. */
  method PassCaptcha(sb: Browser, acc: Account) returns (fault: Option<Fault>)
    modifies sb
    ensures RunStage(Captcha, sb.script, acc, old(sb.State())) == Halted(fault, sb.State())
  {
    var solved := sb.SolveCaptcha();
    var path := TakeShot(sb, AfterCaptcha);
    fault := if path.None? then Some(ShotFailed(AfterCaptcha)) else None;
  }

  /** Step 8: click Start / Restore, or save `08_no_restore.png` when it is not yet due. */
  method ClickRestore(sb: Browser, acc: Account) returns (fault: Option<Fault>)
    modifies sb
    ensures RunStage(Restore, sb.script, acc, old(sb.State())) == Halted(fault, sb.State())
  {
    var restored := TryClick(sb, Locators(Restore), Timeout(Restore));
    fault := None;
    if !restored {
      var path := TakeShot(sb, NoRestore);
      if path.None? {
        fault := Some(ShotFailed(NoRestore));
      }
    }
  }

  /** Step 9: click Start when the server is stopped; nothing happens otherwise. */
  method ClickStart(sb: Browser, acc: Account)
    modifies sb
    ensures RunStage(Start, sb.script, acc, old(sb.State())) == Go(sb.State())
  {
    var started := TryClick(sb, Locators(Start), Timeout(Start));
  }

  /** The closing frame `09_final.png`. */
  method SaveFinal(sb: Browser, acc: Account) returns (fault: Option<Fault>)
    modifies sb
    ensures RunStage(Finish, sb.script, acc, old(sb.State())) == Halted(fault, sb.State())
  {
    var path := TakeShot(sb, Final);
    fault := if path.None? then Some(ShotFailed(Final)) else None;
  }

  /** Steps 1 to 3 of `run`: from the home page to the login page. */
  method ReachLogin(sb: Browser, acc: Account) returns (fault: Option<Fault>)
    modifies sb
    ensures ChainFrom(Open, sb.script, acc, old(sb.State())) ==
      if fault.Some? then Stop(fault.value, sb.State()) else ChainFrom(Credentials, sb.script, acc, sb.State())
  {
    ghost var pre := sb.State();
    fault := OpenHome(sb, acc);
    if fault.Some? { return; }
    assert ChainFrom(Open, sb.script, acc, pre) == ChainFrom(Cookie, sb.script, acc, sb.State());
    pre := sb.State();
    fault := AcceptCookies(sb, acc);
    if fault.Some? { return; }
    assert ChainFrom(Cookie, sb.script, acc, pre) == ChainFrom(LogIn, sb.script, acc, sb.State());
    pre := sb.State();
    fault := ClickMandatory(sb, acc, LogIn, LoginPage);
    if fault.Some? { return; }
    assert ChainFrom(LogIn, sb.script, acc, pre) == ChainFrom(Credentials, sb.script, acc, sb.State());
  }

  /** Steps 4 to 6 of `run`: the login form, Cloudflare and the submit button. */
  method LogInForm(sb: Browser, acc: Account) returns (fault: Option<Fault>)
    modifies sb
    ensures ChainFrom(Credentials, sb.script, acc, old(sb.State())) ==
      if fault.Some? then Stop(fault.value, sb.State()) else ChainFrom(Manage, sb.script, acc, sb.State())
  {
    ghost var pre := sb.State();
    fault := EnterCredentials(sb, acc);
    if fault.Some? { return; }
    assert ChainFrom(Credentials, sb.script, acc, pre) == ChainFrom(Captcha, sb.script, acc, sb.State());
    pre := sb.State();
    fault := PassCaptcha(sb, acc);
    if fault.Some? { return; }
    assert ChainFrom(Captcha, sb.script, acc, pre) == ChainFrom(Submit, sb.script, acc, sb.State());
    pre := sb.State();
    fault := ClickMandatory(sb, acc, Submit, AfterLogin);
    if fault.Some? { return; }
    assert ChainFrom(Submit, sb.script, acc, pre) == ChainFrom(Manage, sb.script, acc, sb.State());
  }

  /** Steps 8 and 9 of `run` and the final screenshot: from the server page to the started server. */
  method StartServer(sb: Browser, acc: Account) returns (fault: Option<Fault>)
    modifies sb
    ensures ChainFrom(Restore, sb.script, acc, old(sb.State())) == Halted(fault, sb.State())
  {
    ghost var pre := sb.State();
    fault := ClickRestore(sb, acc);
    if fault.Some? { return; }
    assert ChainFrom(Restore, sb.script, acc, pre) == ChainFrom(Start, sb.script, acc, sb.State());
    pre := sb.State();
    ClickStart(sb, acc);
    assert ChainFrom(Start, sb.script, acc, pre) == ChainFrom(Finish, sb.script, acc, sb.State());
    fault := SaveFinal(sb, acc);
  }

  /** The body of `run`'s `try`, returning the exception raised, if any. */
  method RunChain(sb: Browser, acc: Account) returns (fault: Option<Fault>)
    modifies sb
    ensures Chain(sb.script, acc, old(sb.State())) == Halted(fault, sb.State())
  {
    ghost var pre := sb.State();
    fault := ReachLogin(sb, acc);
    if fault.Some? { return; }
    fault := LogInForm(sb, acc);
    if fault.Some? { return; }
    pre := sb.State();
    fault := ClickMandatory(sb, acc, Manage, AfterManage);
    if fault.Some? { return; }
    assert ChainFrom(Manage, sb.script, acc, pre) == ChainFrom(Restore, sb.script, acc, sb.State());
    fault := StartServer(sb, acc);
  }

  /**
   * `run`: the chain, the success notification, or the exception handler's
   * `error.png`, failure notification and re-raise.
   */
  method Run(acc: Account, sb: Browser, tg: Telegram) returns (outcome: Outcome)
    modifies sb, tg
    ensures var r := RunReport(sb.script, acc, old(sb.State()));
      outcome == r.outcome && sb.State() == r.session && tg.sent == old(tg.sent) + Posts(tg.config, r)
  {
    var fault := RunChain(sb, acc);
    if fault.None? {
      tg.Send(SuccessText(acc.email), Some(Path(Final)), Final in sb.saved);
      return Renewed;
    }
    var errShot := TakeShot(sb, ErrorFrame);
    if errShot.None? {
      return Failed(ShotFailed(ErrorFrame));
    }
    tg.Send(FailureText(acc.email, fault.value), errShot, ErrorFrame in sb.saved);
    return Failed(fault.value);
  }
}
