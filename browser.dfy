/**
 * The browser as the renewal drives it. The real browser is a foreign
 * library; here it is an oracle (`Script`) that answers, from the history of
 * what has been done to the page so far, whether a selector becomes visible
 * within a timeout, whether an action on it goes through, whether the home
 * page opens, whether the captcha calls return normally, whether the current
 * URL can be read and whether a screenshot can be saved; it also answers
 * whether the artifacts directory can be created. A `Browser` object keeps
 * the log of what was done.
 */
module Browsing {
  import opened Wrappers

  /** An XPath or CSS selector, kept as its text and otherwise opaque. */
  type Selector = string

  /** An action that went through and so may have changed the page. */
  datatype Act =
    | Visit                              // cookies cleared and the home page opened
    | Click(sel: Selector)
    | Type(sel: Selector, text: string)
    | Solve                              // both captcha calls returned normally

  /** The screenshots the renewal takes, one constructor per file name. */
  datatype Shot =
    | Homepage | AfterCookie | LoginPage | AfterInput | AfterCaptcha
    | AfterLogin | AfterManage | NoRestore | Final
    | NoLoginButton | NoForm | NoSubmit | NoManage | ErrorFrame

  /** The file name each screenshot is saved under in the artifacts directory. */
  function FileName(shot: Shot): string {
    match shot
    case Homepage => "01_homepage.png"
    case AfterCookie => "02_after_cookie.png"
    case LoginPage => "03_loginpage.png"
    case AfterInput => "04_after_input.png"
    case AfterCaptcha => "05_after_captcha.png"
    case AfterLogin => "06_after_login.png"
    case AfterManage => "07_after_manage.png"
    case NoRestore => "08_no_restore.png"
    case Final => "09_final.png"
    case NoLoginButton => "error_no_login_btn.png"
    case NoForm => "error_no_form.png"
    case NoSubmit => "error_no_submit.png"
    case NoManage => "error_no_manage.png"
    case ErrorFrame => "error.png"
  }

  /** The screenshots that mark progress, as opposed to error frames. */
  predicate Numbered(shot: Shot) {
    !(shot.NoLoginButton? || shot.NoForm? || shot.NoSubmit? || shot.NoManage? || shot.ErrorFrame?)
  }

  /** The step number a progress screenshot carries in its file name. */
  function Number(shot: Shot): (n: nat)
    requires Numbered(shot)
    ensures 1 <= n <= 9
    ensures FileName(shot)[0] == '0' && FileName(shot)[1] as int == '0' as int + n
  {
    match shot
    case Homepage => 1
    case AfterCookie => 2
    case LoginPage => 3
    case AfterInput => 4
    case AfterCaptcha => 5
    case AfterLogin => 6
    case AfterManage => 7
    case NoRestore => 8
    case Final => 9
  }

  /** Python's ordering of strings: lexicographic by code point. */
  predicate LexLess(a: string, b: string) {
    if a == [] then b != []
    else b != [] && (a[0] < b[0] || (a[0] == b[0] && LexLess(a[1..], b[1..])))
  }

  /**
   * A directory listing sorted by name puts progress screenshots in the order
   * of their step numbers, so it reconstructs the order of the run.
   */
  lemma ListingOrder(a: Shot, b: Shot)
    requires Numbered(a) && Numbered(b)
    ensures Number(a) < Number(b) <==> LexLess(FileName(a), FileName(b))
  {
    var fa, fb := FileName(a), FileName(b);
    if Number(a) == Number(b) {
      assert a == b;
      LexLessIrreflexive(fa);
    }
  }

  lemma {:induction false} LexLessIrreflexive(a: string)
    ensures !LexLess(a, a)
  {
    if a != [] {
      LexLessIrreflexive(a[1..]);
    }
  }

  /**
   * The browser oracle. `h` is always the history of acts that went through
   * so far in this session; the page is whatever that history made of it.
   */
  datatype Script = Script(
    opens: seq<Act> -> bool,                     // delete_all_cookies and uc_open_with_reconnect return
    visible: (seq<Act>, Selector, nat) -> bool,  // wait_for_element_visible(sel, timeout) returns
    accepts: (seq<Act>, Selector) -> bool,       // click(sel) or type(sel, ...) returns
    solves: seq<Act> -> bool,                    // uc_gui_click_captcha and uc_gui_handle_captcha return
    urlFails: seq<Act> -> bool,                  // get_current_url raises
    shotFails: Shot -> bool,                     // save_screenshot raises for this file
    dirFails: bool)                              // os.makedirs of the artifacts directory raises

  /** The observable state of one browser session. */
  datatype Session = Session(
    acted: seq<Act>,         // acts that went through, in order
    waited: seq<Selector>,   // every selector waited on, in order
    saved: seq<Shot>)        // every screenshot written, in order

  const Fresh := Session([], [], [])

  /** The index of the first element of `xs` that satisfies `p`, if any. */
  function First<T>(p: T -> bool, xs: seq<T>): (r: Option<nat>)
    ensures r.Some? ==> r.value < |xs| && p(xs[r.value])
    ensures r.Some? ==> forall j :: 0 <= j < r.value ==> !p(xs[j])
    ensures r.None? <==> forall j :: 0 <= j < |xs| ==> !p(xs[j])
  {
    if xs == [] then None
    else if p(xs[0]) then Some(0)
    else
      match First(p, xs[1..])
      case None => None
      case Some(k) =>
        assert forall j :: 1 <= j <= k ==> xs[j] == xs[1..][j - 1];
        Some(k + 1)
  }

  /** The selectors tried by a first-match search that stopped at `r`: up to the match, or all. */
  function TriedUpTo(sels: seq<Selector>, r: Option<nat>): (t: seq<Selector>)
    ensures r.Some? && r.value < |sels| ==> t == sels[..r.value + 1]
    ensures r.None? ==> t == sels
  {
    if r.Some? && r.value < |sels| then sels[..r.value + 1] else sels
  }

  /** A browser session: the library's `SB` object. */
  class Browser {
    const script: Script
    var acted: seq<Act>
    var waited: seq<Selector>
    var saved: seq<Shot>

    function State(): Session
      reads this
    {
      Session(acted, waited, saved)
    }

    constructor (script: Script)
      ensures this.script == script && State() == Fresh
    {
      this.script := script;
      acted, waited, saved := [], [], [];
    }

    /** `delete_all_cookies()` then `uc_open_with_reconnect(HOME_URL)`; false when either raises. */
    method Open() returns (ok: bool)
      modifies this
      ensures ok == script.opens(old(acted))
      ensures State() == if ok then old(State()).(acted := old(acted) + [Visit]) else old(State())
    {
      ok := script.opens(acted);
      if ok {
        acted := acted + [Visit];
      }
    }

    /** `wait_for_element_visible(sel, timeout)`; false when it times out. */
    method WaitVisible(sel: Selector, timeout: nat) returns (ok: bool)
      modifies this
      ensures ok == script.visible(old(acted), sel, timeout)
      ensures State() == old(State()).(waited := old(waited) + [sel])
    {
      ok := script.visible(acted, sel, timeout);
      waited := waited + [sel];
    }

    /** `click(sel)`; false when it raises. */
    method Click(sel: Selector) returns (ok: bool)
      modifies this
      ensures ok == script.accepts(old(acted), sel)
      ensures State() == if ok then old(State()).(acted := old(acted) + [Act.Click(sel)]) else old(State())
    {
      ok := script.accepts(acted, sel);
      if ok {
        acted := acted + [Act.Click(sel)];
      }
    }

    /** `type(sel, text)`; false when it raises. */
    method Type(sel: Selector, text: string) returns (ok: bool)
      modifies this
      ensures ok == script.accepts(old(acted), sel)
      ensures State() == if ok then old(State()).(acted := old(acted) + [Act.Type(sel, text)]) else old(State())
    {
      ok := script.accepts(acted, sel);
      if ok {
        acted := acted + [Act.Type(sel, text)];
      }
    }

    /** `uc_gui_click_captcha()` then `uc_gui_handle_captcha()`; false when either raises. */
    method SolveCaptcha() returns (ok: bool)
      modifies this
      ensures ok == script.solves(old(acted))
      ensures State() == if ok then old(State()).(acted := old(acted) + [Solve]) else old(State())
    {
      ok := script.solves(acted);
      if ok {
        acted := acted + [Solve];
      }
    }

    /** `get_current_url()`, whose value is only logged; false when it raises. */
    method CurrentUrl() returns (ok: bool)
      ensures ok == !script.urlFails(acted)
    {
      ok := !script.urlFails(acted);
    }

    /** `save_screenshot(path)`; false when it raises. */
    method SaveScreenshot(shot: Shot) returns (ok: bool)
      modifies this
      ensures ok == !script.shotFails(shot)
      ensures State() == if ok then old(State()).(saved := old(saved) + [shot]) else old(State())
    {
      ok := !script.shotFails(shot);
      if ok {
        saved := saved + [shot];
      }
    }
  }
}
