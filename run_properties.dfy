/**
 * What a renewal run promises: the fallback searches stop at the first
 * selector that works, mandatory steps halt the run with their own error
 * frame, optional steps never do, a successful run leaves the screenshots in
 * step order, and every run ends with at most one notification.
 */
module RunProperties {
  import opened Wrappers
  import opened Accounts
  import opened Browsing
  import opened Notify
  import opened Renewal

  /** The progress screenshots every successful run takes, in order. */
  const Progress: seq<Shot> := [Homepage, AfterCookie, LoginPage, AfterInput, AfterCaptcha, AfterLogin, AfterManage]

  /** The screenshots a step adds when it goes on; `restored` says whether Start / Restore was clicked. */
  function GoShots(st: Stage, restored: bool): seq<Shot> {
    match st
    case Open => [Homepage]
    case Cookie => [AfterCookie]
    case LogIn => [LoginPage]
    case Credentials => [AfterInput]
    case Captcha => [AfterCaptcha]
    case Submit => [AfterLogin]
    case Manage => [AfterManage]
    case Restore => if restored then [] else [NoRestore]
    case Start => []
    case Finish => [Final]
  }

  /** The screenshots of the steps from `a` up to, not including, `b`, when all of them go on. */
  function Between(a: Stage, b: Stage, restored: bool): seq<Shot>
    decreases 9 - Index(a)
  {
    if Index(a) >= Index(b) then [] else GoShots(a, restored) + Between(Next(a), b, restored)
  }

  /** The screenshots of the steps from `st` to the end, when all of them go on. */
  function Trail(st: Stage, restored: bool): seq<Shot>
    decreases 9 - Index(st)
  {
    if st == Finish then GoShots(st, restored) else GoShots(st, restored) + Trail(Next(st), restored)
  }

  /**
   * `try_click` tries the selectors in list order and stops at the first
   * one whose wait and click both go through: no later selector is waited
   * on. It reports failure only after waiting on every selector, and then
   * has clicked nothing.
   */
  lemma ClickFirstShortCircuits(sc: Script, s: Session, sels: seq<Selector>, timeout: nat)
    ensures var (ok, u) := ClickFirst(sc, s, sels, timeout); var hit := Hits(sc, s.acted, timeout);
      && u.saved == s.saved
      && (ok <==> exists i :: 0 <= i < |sels| && hit(sels[i]))
      && (ok ==> exists i :: 0 <= i < |sels| && hit(sels[i]) && (forall j :: 0 <= j < i ==> !hit(sels[j]))
                  && u.waited == s.waited + sels[..i + 1] && u.acted == s.acted + [Act.Click(sels[i])])
      && (!ok ==> u.waited == s.waited + sels && u.acted == s.acted)
  {
    var r := First(Hits(sc, s.acted, timeout), sels);
    if r.Some? {
      var i := r.value;
      assert Hits(sc, s.acted, timeout)(sels[i]);
    }
  }

  /**
   * The email loop stops at the first selector that becomes visible: that
   * selector is the field, no later one is waited on, and nothing is clicked,
   * typed or saved. It finds no field only after waiting on every selector.
   */
  lemma FindVisibleFirst(sc: Script, s: Session, sels: seq<Selector>, timeout: nat)
    ensures var (field, u) := FindVisible(sc, s, sels, timeout); var shows := Shows(sc, s.acted, timeout);
      && u.acted == s.acted && u.saved == s.saved
      && (field.None? <==> forall i :: 0 <= i < |sels| ==> !shows(sels[i]))
      && (field.Some? ==>
            exists i :: 0 <= i < |sels| && field.value == sels[i] && shows(sels[i])
                        && (forall j :: 0 <= j < i ==> !shows(sels[j])) && u.waited == s.waited + sels[..i + 1])
      && (field.None? ==> u.waited == s.waited + sels)
  {
    var r := First(Shows(sc, s.acted, timeout), sels);
    if r.Some? {
      assert Shows(sc, s.acted, timeout)(sels[r.value]);
    }
  }

  /**
   * The password loop types into the first selector that is visible and
   * accepts the text, exactly once, and waits on no later one; when there is
   * none it has typed nothing and waited on every selector.
   */
  lemma TypeFirstHit(sc: Script, s: Session, sels: seq<Selector>, timeout: nat, text: string)
    ensures var u := TypeFirst(sc, s, sels, timeout, text); var hit := Hits(sc, s.acted, timeout);
      && u.saved == s.saved
      && ((forall i :: 0 <= i < |sels| ==> !hit(sels[i])) ==> u.acted == s.acted && u.waited == s.waited + sels)
      && ((exists i :: 0 <= i < |sels| && hit(sels[i])) ==>
            exists i :: 0 <= i < |sels| && hit(sels[i]) && (forall j :: 0 <= j < i ==> !hit(sels[j]))
                        && u.acted == s.acted + [Act.Type(sels[i], text)] && u.waited == s.waited + sels[..i + 1])
  {
    var r := First(Hits(sc, s.acted, timeout), sels);
    if r.Some? {
      assert Hits(sc, s.acted, timeout)(sels[r.value]);
    }
  }

  /**
   * Log In, submit and Manage halt exactly when none of their selectors can
   * be clicked: the run then stops on that step's error frame, or on the
   * failure to save it.
   */
  lemma MandatoryClickHalts(st: Stage, sc: Script, acc: Account, s: Session)
    requires st == LogIn || st == Submit || st == Manage
    ensures var r := RunStage(st, sc, acc, s);
      (r.Stop? && (r.fault == Unresolved(st) || r.fault == ShotFailed(ErrorShot(st))))
      <==> forall i :: 0 <= i < |Locators(st)| ==> !Hits(sc, s.acted, Timeout(st))(Locators(st)[i])
  {
    var hits := Hits(sc, s.acted, Timeout(st));
    var found := First(hits, Locators(st));
    var r := RunStage(st, sc, acc, s);
    if found.Some? {
      assert hits(Locators(st)[found.value]);
      assert ClickFirst(sc, s, Locators(st), Timeout(st)).0;
      assert r.Stop? ==> r.fault.UrlFailed? || r.fault == ShotFailed(if st == LogIn then LoginPage else if st == Submit then AfterLogin else AfterManage);
    }
  }

  /**
   * The email field is strict: the credentials step halts on `error_no_form.png`
   * exactly when none of the email selectors becomes visible.
   */
  lemma EmailStrict(sc: Script, acc: Account, s: Session)
    ensures var r := RunStage(Credentials, sc, acc, s);
      (r.Stop? && (r.fault == Unresolved(Credentials) || r.fault == ShotFailed(NoForm)))
      <==> forall i :: 0 <= i < |Locators(Credentials)| ==> !sc.visible(s.acted, Locators(Credentials)[i], Timeout(Credentials))
  {
    var shows := Shows(sc, s.acted, Timeout(Credentials));
    var r := First(shows, Locators(Credentials));
    if r.Some? {
      assert shows(Locators(Credentials)[r.value]);
    } else {
      forall i | 0 <= i < |Locators(Credentials)|
        ensures !sc.visible(s.acted, Locators(Credentials)[i], Timeout(Credentials))
      {
        assert !shows(Locators(Credentials)[i]);
      }
    }
  }

  /**
   * The password field is lenient: once the email is typed, whether a
   * password field was found or not, the step goes on unless saving
   * `04_after_input.png` fails; without a password field nothing is typed.
   */
  lemma PasswordLenient(sc: Script, acc: Account, s: Session)
    requires var (field, t) := FindVisible(sc, s, Locators(Credentials), Timeout(Credentials));
      field.Some? && sc.accepts(t.acted, field.value)
    ensures RunStage(Credentials, sc, acc, s).Go? <==> !sc.shotFails(AfterInput)
    ensures var (field, t) := FindVisible(sc, s, Locators(Credentials), Timeout(Credentials));
      var h := t.acted + [Act.Type(field.value, acc.email)];
      (forall i :: 0 <= i < |PasswordSelectors| ==> !Hits(sc, h, Timeout(Credentials))(PasswordSelectors[i]))
      ==> RunStage(Credentials, sc, acc, s).s.acted == h
  {
  }

  /**
   * Optional steps never halt the run on their own: the cookie banner,
   * Cloudflare and Start / Restore stop it only when their screenshot cannot
   * be saved, and Start never stops it.
   */
  lemma OptionalNeverHalts(st: Stage, sc: Script, acc: Account, s: Session)
    requires Optional(st)
    ensures RunStage(st, sc, acc, s).Stop? ==> RunStage(st, sc, acc, s).fault.ShotFailed?
    ensures st == Start ==> RunStage(st, sc, acc, s).Go?
  {
  }

  /** An unresolved Start / Restore only adds `08_no_restore.png`. */
  lemma RestoreSkipped(sc: Script, acc: Account, s: Session)
    ensures var (ok, t) := ClickFirst(sc, s, Locators(Restore), Timeout(Restore));
      var r := RunStage(Restore, sc, acc, s);
      && (ok ==> r == Go(t) && t.saved == s.saved)
      && (!ok && !sc.shotFails(NoRestore) ==> r == Go(t.(saved := s.saved + [NoRestore])))
  {
    ClickFirstShortCircuits(sc, s, Locators(Restore), Timeout(Restore));
  }

  /** Taking one step of the chain: it stops there, ends there, or carries on from the step's result. */
  lemma ChainStep(st: Stage, sc: Script, acc: Account, s: Session)
    ensures var r := RunStage(st, sc, acc, s);
      ChainFrom(st, sc, acc, s) ==
        if r.Stop? then r else if st == Finish then Go(r.s) else ChainFrom(Next(st), sc, acc, r.s)
  {
  }

  /**
   * What one step does to the screenshots: going on adds its own
   * screenshots; stopping on an unresolved selector set happens only at a
   * mandatory step, after saving that step's error frame; any other stop is
   * a failed screenshot, a home page that would not open or an email field
   * that refused the text.
   */
  predicate Behaves(st: Stage, s: Session, r: Step, restored: bool) {
    && (r.Go? ==> r.s.saved == s.saved + GoShots(st, restored))
    && (r.Stop? && r.fault.Unresolved? ==>
          r.fault == Unresolved(st) && Mandatory(st) && r.s.saved == s.saved + [ErrorShot(st)])
    && (r.Stop? && r.fault == OpenFailed ==> st == Open)
    && (r.Stop? && r.fault == TypeFailed ==> st == Credentials)
    && (r.Stop? && r.fault == UrlFailed ==> st == LogIn || st == Submit)
  }

  lemma OpenBehaves(st: Stage, sc: Script, acc: Account, s: Session)
    requires st == Open
    ensures Behaves(st, s, RunStage(st, sc, acc, s), true)
  {
  }

  lemma CookieBehaves(st: Stage, sc: Script, acc: Account, s: Session)
    requires st == Cookie
    ensures Behaves(st, s, RunStage(st, sc, acc, s), true)
  {
  }

  lemma LogInBehaves(st: Stage, sc: Script, acc: Account, s: Session)
    requires st == LogIn
    ensures Behaves(st, s, RunStage(st, sc, acc, s), true)
  {
  }

  lemma CredentialsBehaves(st: Stage, sc: Script, acc: Account, s: Session)
    requires st == Credentials
    ensures Behaves(st, s, RunStage(st, sc, acc, s), true)
  {
  }

  lemma CaptchaBehaves(st: Stage, sc: Script, acc: Account, s: Session)
    requires st == Captcha
    ensures Behaves(st, s, RunStage(st, sc, acc, s), true)
  {
  }

  lemma SubmitBehaves(st: Stage, sc: Script, acc: Account, s: Session)
    requires st == Submit
    ensures Behaves(st, s, RunStage(st, sc, acc, s), true)
  {
  }

  lemma ManageBehaves(st: Stage, sc: Script, acc: Account, s: Session)
    requires st == Manage
    ensures Behaves(st, s, RunStage(st, sc, acc, s), true)
  {
  }

  lemma RestoreBehaves(st: Stage, sc: Script, acc: Account, s: Session)
    requires st == Restore
    ensures Behaves(st, s, RunStage(st, sc, acc, s), ClickFirst(sc, s, Locators(Restore), Timeout(Restore)).0)
  {
  }

  lemma StartBehaves(st: Stage, sc: Script, acc: Account, s: Session)
    requires st == Start
    ensures Behaves(st, s, RunStage(st, sc, acc, s), true)
  {
  }

  lemma FinishBehaves(st: Stage, sc: Script, acc: Account, s: Session)
    requires st == Finish
    ensures Behaves(st, s, RunStage(st, sc, acc, s), true)
  {
  }

  /**
   * Every step behaves as `Behaves` says. Only Start / Restore has a choice
   * of screenshots, reported as `restored`: whether one of its selectors was
   * clicked. For every other step `restored` is `want`.
   */
  lemma StageBehaves(st: Stage, sc: Script, acc: Account, s: Session, want: bool) returns (restored: bool)
    ensures Behaves(st, s, RunStage(st, sc, acc, s), restored)
    ensures st != Restore ==> restored == want
    ensures st == Restore ==> restored == ClickFirst(sc, s, Locators(Restore), Timeout(Restore)).0
  {
    restored := if st == Restore then ClickFirst(sc, s, Locators(Restore), Timeout(Restore)).0 else want;
    match st
    case Open => OpenBehaves(st, sc, acc, s);
    case Cookie => CookieBehaves(st, sc, acc, s);
    case LogIn => LogInBehaves(st, sc, acc, s);
    case Credentials => CredentialsBehaves(st, sc, acc, s);
    case Captcha => CaptchaBehaves(st, sc, acc, s);
    case Submit => SubmitBehaves(st, sc, acc, s);
    case Manage => ManageBehaves(st, sc, acc, s);
    case Restore => RestoreBehaves(st, sc, acc, s);
    case Start => StartBehaves(st, sc, acc, s);
    case Finish => FinishBehaves(st, sc, acc, s);
  }

  /** Concatenation regrouped. */
  lemma Regroup<T>(a: seq<T>, g: seq<T>, t: seq<T>, r: seq<T>, u: seq<T>)
    requires r == a + g && u == r + t
    ensures u == a + (g + t)
  {
  }

  /** One more step in front of a trail. */
  lemma ExtendTrail(st: Stage, restored: bool, later: bool, s: seq<Shot>, r: seq<Shot>, u: seq<Shot>)
    requires st != Finish
    requires st != Restore ==> restored == later
    requires r == s + GoShots(st, restored) && u == r + Trail(Next(st), later)
    ensures u == s + Trail(st, restored)
  {
    if st == Restore {
      assert Trail(Start, true) == Trail(Start, false);
    }
    assert Trail(st, restored) == GoShots(st, restored) + Trail(Next(st), restored);
    Regroup(s, GoShots(st, restored), Trail(Next(st), restored), r, u);
  }

  /**
   * The steps from `st` up to, not including, `target`: the session `target`
   * starts from, or the exception one of them raised.
   */
  function Reach(st: Stage, target: Stage, sc: Script, acc: Account, s: Session): Step
    decreases 9 - Index(st)
  {
    if Index(st) >= Index(target) then Go(s)
    else
      var t :- RunStage(st, sc, acc, s);
      Reach(Next(st), target, sc, acc, t)
  }

  /** The chain from `st` is the steps up to `target`, then the chain from `target`. */
  lemma {:induction false} ChainThrough(st: Stage, target: Stage, sc: Script, acc: Account, s: Session)
    requires Index(st) <= Index(target)
    ensures ChainFrom(st, sc, acc, s) ==
      match Reach(st, target, sc, acc, s)
      case Stop(f, t) => Stop(f, t)
      case Go(t) => ChainFrom(target, sc, acc, t)
    decreases 9 - Index(st)
  {
    if Index(st) == Index(target) {
      SameIndex(st, target);
    } else {
      ReachStep(st, target, sc, acc, s);
      ChainStep(st, sc, acc, s);
      var r := RunStage(st, sc, acc, s);
      if r.Go? {
        ChainThrough(Next(st), target, sc, acc, r.s);
      }
    }
  }

  /** Taking one step towards `target`. */
  lemma ReachStep(st: Stage, target: Stage, sc: Script, acc: Account, s: Session)
    requires Index(st) < Index(target)
    ensures st != Finish
    ensures var r := RunStage(st, sc, acc, s);
      Reach(st, target, sc, acc, s) == if r.Stop? then r else Reach(Next(st), target, sc, acc, r.s)
  {
  }

  /** Steps are told apart by their position. */
  lemma SameIndex(a: Stage, b: Stage)
    requires Index(a) == Index(b)
    ensures a == b
  {
  }

  /** Start / Restore was clicked when the chain from `st` reached it on `s`. */
  predicate ClickedRestore(st: Stage, sc: Script, acc: Account, s: Session, restored: bool) {
    var at := Reach(st, Restore, sc, acc, s);
    at.Go? && restored == ClickFirst(sc, at.s, Locators(Restore), Timeout(Restore)).0
  }

  /**
   * The chain from `st` on, when it goes all the way, adds the screenshots of
   * every step from there; `restored` is whether Start / Restore was clicked.
   */
  lemma {:induction false} TrailFrom(st: Stage, sc: Script, acc: Account, s: Session) returns (restored: bool)
    requires ChainFrom(st, sc, acc, s).Go?
    ensures ChainFrom(st, sc, acc, s).s.saved == s.saved + Trail(st, restored)
    ensures Index(st) <= Index(Restore) ==> ClickedRestore(st, sc, acc, s, restored)
    decreases 9 - Index(st)
  {
    ChainStep(st, sc, acc, s);
    var r := RunStage(st, sc, acc, s).s;
    if st == Finish {
      restored := StageBehaves(st, sc, acc, s, true);
    } else {
      var later := TrailFrom(Next(st), sc, acc, r);
      restored := StageBehaves(st, sc, acc, s, later);
      ExtendTrail(st, restored, later, s.saved, r.saved, ChainFrom(Next(st), sc, acc, r).s.saved);
      if Index(st) == Index(Restore) {
        SameIndex(st, Restore);
        ClickedHere(sc, acc, s, restored);
      } else if Index(st) < Index(Restore) {
        ClickedLater(st, sc, acc, s, r, restored);
      }
    }
  }

  /** Start / Restore clicked on the session it starts from. */
  lemma ClickedHere(sc: Script, acc: Account, s: Session, restored: bool)
    requires restored == ClickFirst(sc, s, Locators(Restore), Timeout(Restore)).0
    ensures ClickedRestore(Restore, sc, acc, s, restored)
  {
    assert Reach(Restore, Restore, sc, acc, s) == Go(s);
  }

  /** Start / Restore clicked from the next step on is clicked from an earlier step that goes on. */
  lemma ClickedLater(st: Stage, sc: Script, acc: Account, s: Session, t: Session, restored: bool)
    requires Index(st) < Index(Restore) && RunStage(st, sc, acc, s) == Go(t)
    requires st != Finish && ClickedRestore(Next(st), sc, acc, t, restored)
    ensures ClickedRestore(st, sc, acc, s, restored)
  {
    ReachStep(st, Restore, sc, acc, s);
  }

  /** The whole trail, with and without Start / Restore clicked. */
  lemma WholeTrail(restored: bool)
    ensures Trail(Open, restored) == Progress + Ending(restored)
  {
    if restored {
      assert Trail(Open, true) == Progress + [Final];
    } else {
      assert Trail(Open, false) == Progress + [NoRestore, Final];
    }
  }

  /** The screenshots after Manage in a successful run: `08_no_restore.png` only if Start / Restore was not clicked. */
  function Ending(restored: bool): seq<Shot> {
    if restored then [Final] else [NoRestore, Final]
  }

  /**
   * A successful run saves the seven progress screenshots, then
   * `08_no_restore.png` only if Start / Restore was not clicked, then
   * `09_final.png`; `restored` is whether Start / Restore was clicked on
   * the session the chain reached it with.
   */
  lemma SuccessTrace(sc: Script, acc: Account, s0: Session) returns (restored: bool)
    requires Chain(sc, acc, s0).Go?
    ensures Chain(sc, acc, s0).s.saved == s0.saved + Progress + Ending(restored)
    ensures ClickedRestore(Open, sc, acc, s0, restored)
  {
    restored := TrailFrom(Open, sc, acc, s0);
    WholeTrail(restored);
    Regroup(s0.saved, Progress, Ending(restored), s0.saved + Progress, s0.saved + Trail(Open, restored));
  }

  /** Neighbouring screenshots carry increasing step numbers. */
  predicate Ascending(saved: seq<Shot>) {
    forall k :: 0 <= k < |saved| ==> (Numbered(saved[k])
    && (k + 1 < |saved| ==> Numbered(saved[k + 1]) && Number(saved[k]) < Number(saved[k + 1])))
  }

  /** Increasing between neighbours is increasing throughout, in step number and in file name. */
  lemma Ordered(saved: seq<Shot>)
    requires Ascending(saved)
    ensures forall i, j :: 0 <= i < j < |saved| ==>
      Numbered(saved[i]) && Numbered(saved[j]) && Number(saved[i]) < Number(saved[j])
      && LexLess(FileName(saved[i]), FileName(saved[j]))
  {
    forall i, j | 0 <= i < j < |saved|
      ensures Number(saved[i]) < Number(saved[j])
    {
      NumbersIncrease(saved, i, j);
    }
    forall i, j | 0 <= i < j < |saved|
      ensures LexLess(FileName(saved[i]), FileName(saved[j]))
    {
      ListingOrder(saved[i], saved[j]);
    }
  }

  /** Both success traces are ascending. */
  lemma TraceAscends(restored: bool, saved: seq<Shot>)
    requires saved == [] + Progress + Ending(restored)
    ensures Ascending(saved)
  {
    if restored {
      assert saved == [Homepage, AfterCookie, LoginPage, AfterInput, AfterCaptcha, AfterLogin, AfterManage, Final];
      assert forall k :: 0 <= k < |saved| ==> Numbered(saved[k]) && Number(saved[k]) == (if k == 7 then 9 else k + 1);
    } else {
      assert saved == [Homepage, AfterCookie, LoginPage, AfterInput, AfterCaptcha, AfterLogin, AfterManage, NoRestore, Final];
      assert forall k :: 0 <= k < |saved| ==> Numbered(saved[k]) && Number(saved[k]) == k + 1;
    }
  }

  /**
   * In a successful run on a fresh session the screenshots carry strictly
   * increasing step numbers, so sorting their file names gives back the
   * order in which they were taken.
   */
  lemma SuccessOrdered(sc: Script, acc: Account)
    requires Chain(sc, acc, Fresh).Go?
    ensures var saved := Chain(sc, acc, Fresh).s.saved;
      forall i, j :: 0 <= i < j < |saved| ==>
        Numbered(saved[i]) && Numbered(saved[j]) && Number(saved[i]) < Number(saved[j])
        && LexLess(FileName(saved[i]), FileName(saved[j]))
  {
    var restored := SuccessTrace(sc, acc, Fresh);
    TraceAscends(restored, Chain(sc, acc, Fresh).s.saved);
    Ordered(Chain(sc, acc, Fresh).s.saved);
  }

  /** Increasing step numbers between neighbours give increasing step numbers throughout. */
  lemma {:induction false} NumbersIncrease(saved: seq<Shot>, i: nat, j: nat)
    requires Ascending(saved)
    requires i < j < |saved|
    ensures Number(saved[i]) < Number(saved[j])
    decreases j - i
  {
    if i + 1 < j {
      NumbersIncrease(saved, i + 1, j);
    }
  }

  /** After Manage, only a screenshot that cannot be saved stops the run. */
  lemma {:induction false} OnlyShotsFailLate(st: Stage, sc: Script, acc: Account, s: Session)
    requires Index(st) > Index(Manage)
    ensures ChainFrom(st, sc, acc, s).Stop? ==> ChainFrom(st, sc, acc, s).fault.ShotFailed?
    decreases 9 - Index(st)
  {
    ChainStep(st, sc, acc, s);
    var r := RunStage(st, sc, acc, s);
    if r.Go? && st != Finish {
      OnlyShotsFailLate(Next(st), sc, acc, r.s);
    }
  }

  /** One more step in front of the screenshots of a halted chain. */
  lemma ExtendBetween(st0: Stage, st: Stage, s: seq<Shot>, r: seq<Shot>, u: seq<Shot>)
    requires st0 != Finish && Index(st0) < Index(st) && Mandatory(st)
    requires r == s + GoShots(st0, true) && u == r + Between(Next(st0), st, true) + [ErrorShot(st)]
    ensures u == s + Between(st0, st, true) + [ErrorShot(st)]
  {
    assert Between(st0, st, true) == GoShots(st0, true) + Between(Next(st0), st, true);
    Regroup(s, GoShots(st0, true), Between(Next(st0), st, true), r, r + Between(Next(st0), st, true));
  }

  /** A step before Manage is followed by a step up to Manage. */
  lemma BeforeManage(st0: Stage)
    requires Index(st0) <= Index(Manage) && st0 != Manage
    ensures st0 != Finish && Index(Next(st0)) <= Index(Manage)
  {
  }

  /** A chain whose first step stops on an unresolved selector set halts there with that step's error frame. */
  lemma HaltHere(st0: Stage, sc: Script, acc: Account, s: Session, st: Stage)
    requires RunStage(st0, sc, acc, s).Stop?
    requires ChainFrom(st0, sc, acc, s).Stop? && ChainFrom(st0, sc, acc, s).fault == Unresolved(st)
    ensures st0 == st && Mandatory(st)
    ensures ChainFrom(st0, sc, acc, s).s.saved == s.saved + Between(st0, st, true) + [ErrorShot(st)]
  {
    ChainStep(st0, sc, acc, s);
    var _ := StageBehaves(st0, sc, acc, s, true);
    EmptyBetween(st, s.saved, ChainFrom(st0, sc, acc, s).s.saved);
  }

  lemma EmptyBetween(st: Stage, s: seq<Shot>, u: seq<Shot>)
    requires Mandatory(st) && u == s + [ErrorShot(st)]
    ensures u == s + Between(st, st, true) + [ErrorShot(st)]
  {
    assert s + Between(st, st, true) == s;
  }

  /**
   * A chain up to Manage whose first step goes on but which later halts on
   * an unresolved selector set halts in the rest of the chain.
   */
  lemma HaltLater(st0: Stage, sc: Script, acc: Account, s: Session, st: Stage)
    requires Index(st0) <= Index(Manage) && RunStage(st0, sc, acc, s).Go?
    requires ChainFrom(st0, sc, acc, s).Stop? && ChainFrom(st0, sc, acc, s).fault == Unresolved(st)
    ensures st0 != Manage && st0 != Finish && Index(Next(st0)) <= Index(Manage)
    ensures var r := RunStage(st0, sc, acc, s).s;
      r.saved == s.saved + GoShots(st0, true) && ChainFrom(st0, sc, acc, s) == ChainFrom(Next(st0), sc, acc, r)
  {
    ChainStep(st0, sc, acc, s);
    var _ := StageBehaves(st0, sc, acc, s, true);
    if st0 == Manage {
      OnlyShotsFailLate(Restore, sc, acc, RunStage(st0, sc, acc, s).s);
      assert false;
    } else {
      BeforeManage(st0);
    }
  }

  /**
   * The chain from `st0` stops on an unresolved step only at a mandatory step
   * at or after `st0`, with the screenshots of the steps in between and that
   * step's error frame.
   */
  lemma {:induction false} HaltFrom(st0: Stage, sc: Script, acc: Account, s: Session, st: Stage)
    requires Index(st0) <= Index(Manage)
    requires ChainFrom(st0, sc, acc, s).Stop? && ChainFrom(st0, sc, acc, s).fault == Unresolved(st)
    ensures Mandatory(st) && Index(st0) <= Index(st)
    ensures ChainFrom(st0, sc, acc, s).s.saved == s.saved + Between(st0, st, true) + [ErrorShot(st)]
    decreases 9 - Index(st0)
  {
    if RunStage(st0, sc, acc, s).Stop? {
      HaltHere(st0, sc, acc, s, st);
    } else {
      HaltLater(st0, sc, acc, s, st);
      var r := RunStage(st0, sc, acc, s).s;
      HaltFrom(Next(st0), sc, acc, r, st);
      ExtendBetween(st0, st, s.saved, r.saved, ChainFrom(Next(st0), sc, acc, r).s.saved);
    }
  }

  /** The steps before a mandatory step take the progress screenshots in order. */
  lemma BetweenIsProgress(st: Stage)
    requires Mandatory(st)
    ensures Between(Open, st, true) == Progress[..Index(st)]
  {
    match st
    case LogIn => assert Between(Open, LogIn, true) == [Homepage, AfterCookie];
    case Credentials => assert Between(Open, Credentials, true) == [Homepage, AfterCookie, LoginPage];
    case Submit => assert Between(Open, Submit, true) == Progress[..5];
    case Manage => assert Between(Open, Manage, true) == Progress[..6];
  }

  /**
   * When a mandatory step does not resolve, the run stops right there: the
   * screenshots are those of the steps before it and its own error frame,
   * and no later step takes one.
   */
  lemma MandatoryHalt(sc: Script, acc: Account, s0: Session, st: Stage)
    requires Chain(sc, acc, s0).Stop? && Chain(sc, acc, s0).fault == Unresolved(st)
    ensures Mandatory(st)
    ensures Chain(sc, acc, s0).s.saved == s0.saved + Progress[..Index(st)] + [ErrorShot(st)]
  {
    HaltFrom(Open, sc, acc, s0, st);
    BetweenIsProgress(st);
  }

  /** A success trace ends with `09_final.png`. */
  lemma EndsWithFinal(s: seq<Shot>, restored: bool, u: seq<Shot>)
    requires u == s + Ending(restored)
    ensures u != [] && u[|u| - 1] == Final
  {
  }

  /**
   * A run ends in exactly one of three ways: renewed, with one success
   * notice offering `09_final.png`, the last screenshot; failed with
   * `error.png` saved last and one failure notice offering it, the
   * exception of the chain re-raised unchanged; or failed because `error.png`
   * itself could not be saved, with no notice.
   */
  lemma RunEnds(sc: Script, acc: Account, s0: Session)
    ensures var r := RunReport(sc, acc, s0); var saved := r.session.saved;
      && (r.outcome.Renewed? <==> Chain(sc, acc, s0).Go?)
      && (r.outcome.Renewed? ==>
            r.notice == Some(Notice(SuccessText(acc.email), Final)) && saved != [] && saved[|saved| - 1] == Final)
      && (r.outcome.Failed? && sc.shotFails(ErrorFrame) ==>
            r.outcome.fault == ShotFailed(ErrorFrame) && r.notice == None)
      && (r.outcome.Failed? && !sc.shotFails(ErrorFrame) ==>
            && r.outcome.fault == Chain(sc, acc, s0).fault
            && saved != [] && saved[|saved| - 1] == ErrorFrame
            && r.notice == Some(Notice(FailureText(acc.email, r.outcome.fault), ErrorFrame)))
  {
    if Chain(sc, acc, s0).Go? {
      var restored := SuccessTrace(sc, acc, s0);
      EndsWithFinal(s0.saved + Progress, restored, Chain(sc, acc, s0).s.saved);
    }
  }

  /**
   * Each run posts at most one notification, none unless both settings are
   * present, and when it posts it offers the screenshot its notice names.
   */
  lemma OnePost(cfg: TgConfig, sc: Script, acc: Account, s0: Session)
    ensures var r := RunReport(sc, acc, s0); var posts := Posts(cfg, r);
      && |posts| <= 1
      && (!Set(cfg.token) || !Set(cfg.chatId) ==> posts == [])
      && (Set(cfg.token) && Set(cfg.chatId) && r.notice.Some? ==>
            posts == [SendPhoto(cfg.token.value, cfg.chatId.value, r.notice.value.text, Path(r.notice.value.photo))])
  {
    var r := RunReport(sc, acc, s0);
    RunEnds(sc, acc, s0);
    var saved := r.session.saved;
    if r.notice.Some? {
      assert saved[|saved| - 1] in saved;
    }
  }
}
