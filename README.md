# runox.io renewal: a Dafny model

`runox_auto.py` logs into runox.io in a real browser for every account in the
`RUNOX_ACCOUNTS` variable. For each account it clicks through to the server
page, renews the server (Start / Restore) when that is due, and starts it.
It takes a screenshot at every step and sends a Telegram message with the
result. This project models:

- the renewal object's constructor;
- the ordered-fallback click helper `try_click`;
- the screenshot helper `shot`;
- the decision `send_tg` makes;
- the step chain of `run` with its exception handler;
- the batch loop of the `__main__` block.

It then proves what these promise.

Modules, one per file:

- `Wrappers` (`wrappers.dfy`): `Option`, `Result`.
- `Accounts` (`accounts.dfy`):
  - Python's `str.strip()`, with the full `isspace` character set;
  - `str.split(sep)` and its inverse `join`;
  - the constructor's parse of an `email:password` entry.
- `Browsing` (`browser.dfy`):
  - the browser as an oracle (`Script`). It answers, from the history of
    actions that went through, whether a selector becomes visible within a
    timeout, whether a click or a type goes through, whether the home page
    opens, whether the captcha calls return, whether the current URL can be
    read, and whether a screenshot can be saved. It also answers whether the
    artifacts directory can be created;
  - the `Browser` class, which logs what was done (`acted`, `waited`, `saved`);
  - the screenshot file names.
- `Notify` (`notify.dfy`): `send_tg` as a decision (`Delivery`) and a
  `Telegram` class that records every post it attempts.
- `Renewal` (`renewal.dfy`):
  - the constructor (`Construct`): the parse, then the artifacts directory;
  - each numbered step of `run` as a method proved against `RunStage`;
  - `try_click` and the two field loops as loops proved against their
    specification functions;
  - `Run`, proved against `RunReport`. `RunReport` is the whole run: the
    chain, then the success notification, or the handler's `error.png`, the
    failure notification and the re-raise.
- `RunProperties` (`run_properties.dfy`): the properties of the run. They
  cover:
  - first-match fallback;
  - mandatory steps versus optional steps;
  - the screenshots of a successful run and of a halted run, and their order;
  - how a run ends;
  - at most one notification.
- `Batch` (`batch.dfy`): the `__main__` loop as a method proved against
  `AttemptsUpTo`/`PostsUpTo`. The properties are failure isolation, blank
  parts being skipped, and the empty variable giving exit code 1.

A raised exception is a value: a `Fault` for the run, an `InitError` for the
constructor. A step that raises stops the chain (`Step.Stop`). The batch loop
catches both kinds, so every non-blank entry gets an `Attempt`.

### Behaviour of the code worth knowing

- **Account split.** The constructor splits an entry on every `:` and keeps
  the first two parts. A password holding a colon is therefore cut at the
  entry's second colon (`ParseTruncatesPassword`). Empty fields are accepted
  (`ParseEmptyFields`).
- **Failed screenshot.** `shot` does not catch the exception of
  `save_screenshot`: a screenshot that cannot be saved ends the run with that
  exception. If it is `error.png` in the handler, it replaces the original
  exception and nothing is sent.
- **Screenshot names.** The file names are the same for every account and
  every run, so a later run overwrites the files of an earlier one. The model
  keeps the screenshots of each session separately.
- **Exit code.** The only test before the loop is whether the variable is
  empty. A variable of blanks and commas passes it, runs nothing and exits
  with code 0 (`BlankVariable`).
- **URL log lines.** After `03_loginpage.png` and `06_after_login.png` the
  current URL is read only to be logged, but the read is inside the `try`: if
  it raises, the run fails there (`UrlFailed`).
- **Success notification.** It is sent inside the `try`. The notifier
  swallows its own errors, so this never reaches the handler.

## Model

| member | source | states |
|---|---|---|
| Accounts.Strip | runox_auto.py:44 | with whitespace as Python's `isspace` (`IsSpace`): the result has no leading or trailing whitespace, is empty exactly when the input is all whitespace, and equals an input without whitespace |
| Accounts.StripCutsWhitespace | runox_auto.py:44 | the result of `strip` is a slice of the input with only whitespace before and after it; with `Strip`'s own ends this fixes the result |
| Accounts.StripIdempotent | runox_auto.py:270-273 | stripping an entry that the batch loop already stripped changes nothing, so the constructor sees the same text |
| Accounts.StripUnchanged | runox_auto.py:44 | a string that neither starts nor ends with whitespace is its own strip |
| Accounts.Split | runox_auto.py:44 | `split` returns one more part than there are separators, and no part holds the separator |
| Accounts.JoinSplit | runox_auto.py:44 | joining the parts of a split with the separator gives back the original string |
| Accounts.SplitJoin | runox_auto.py:269 | splitting the join of separator-free parts gives back exactly those parts |
| Accounts.SplitGlue | runox_auto.py:44 | a separator-free prefix only lengthens the first part of a split |
| Accounts.SplitAfter | runox_auto.py:44 | a separator-free prefix followed by the separator becomes a part of its own |
| Accounts.SplitUpTo | runox_auto.py:44 | a separator-free prefix followed by nothing or by the separator is the first part |
| Accounts.FirstTwoFields | runox_auto.py:47-48 | the first two parts of a split are the text before the first separator and the text between the first and the second |
| Accounts.Fields | runox_auto.py:44-48 | a split has a second part exactly when the separator occurs; the first two parts are separator-free and lead the text |
| Accounts.ParseAccount | runox_auto.py:44-48 | an entry is rejected, with an error naming the entry, exactly when its stripped text has no `:`; otherwise email and password are the colon-free fields that lead the stripped text |
| Accounts.ParseOfFields | runox_auto.py:44-48 | converse: a stripped entry of the form `email:password` followed by nothing or by another `:` field parses to exactly that email and password |
| Accounts.ParsePlainEntry | runox_auto.py:44-48 | `a@x.com:p1` parses to email `a@x.com` and password `p1` |
| Accounts.ParseNoColon | runox_auto.py:45-46 | `bad-entry` is rejected with the constructor's error |
| Accounts.ParseTruncatesPassword | runox_auto.py:44-48 | `u@x.com:pa:ss` parses to password `pa`: the password is cut at the entry's second colon |
| Accounts.ParseEmptyFields | runox_auto.py:44-48 | `:` parses to an account with an empty email and an empty password |
| Browsing.Number | runox_auto.py:112-250 | every progress screenshot's file name starts with `0` and the digit of its step, 1 to 9 |
| Browsing.ListingOrder | runox_auto.py:112-250 | between progress screenshots, a smaller step number is exactly a smaller file name, so a sorted listing gives the order of the run |
| Browsing.First | runox_auto.py:65-72 | the first-match search returns the least index that satisfies the test, or none when no element does |
| Browsing.Browser.Open | runox_auto.py:109-110 | clearing cookies and opening the home page succeeds as the oracle says, and on success adds the visit to the history |
| Browsing.Browser.WaitVisible | runox_auto.py:67 | waiting for a selector is answered by the oracle for the current history and is logged |
| Browsing.Browser.Click | runox_auto.py:68 | a click succeeds as the oracle says and on success is added to the history |
| Browsing.Browser.Type | runox_auto.py:164 | typing succeeds as the oracle says and on success is added to the history |
| Browsing.Browser.SolveCaptcha | runox_auto.py:180-182 | the two captcha calls return normally as the oracle says, and on success are added to the history |
| Browsing.Browser.CurrentUrl | runox_auto.py:145 | reading the current URL (here and at line 205) raises as the oracle says for the current history, and changes nothing |
| Browsing.Browser.SaveScreenshot | runox_auto.py:60 | saving a screenshot raises as the oracle says, and on success adds it to the saved files |
| Notify.Delivery | runox_auto.py:74-85 | nothing is posted unless both token and chat id are non-empty; otherwise a photo with the message as caption when the photo path is non-empty and the file exists, else the bare message, with the configured token and chat id |
| Notify.Telegram.Send | runox_auto.py:74-88 | `send_tg` records exactly the post `Delivery` decides, and a failed post never reaches the caller |
| Renewal.Construct | runox_auto.py:44-50 | the constructor raises exactly when the stripped entry has no `:` (the `ValueError`, naming the entry) or the artifacts directory cannot be created; otherwise it yields the parsed account |
| Renewal.TakeShot | runox_auto.py:58-62 | returns the path in the artifacts directory and appends the screenshot to the session's saved files; when saving raises, returns no path and changes nothing |
| Renewal.TryClick | runox_auto.py:64-72 | the loop of `try_click` yields exactly `ClickFirst`: true with a click on the first selector that becomes visible and accepts the click, false after waiting on every selector |
| Renewal.FindEmailField | runox_auto.py:149-158 | the email loop yields the first selector that becomes visible, having waited on the selectors up to it, or none after waiting on them all |
| Renewal.TypePassword | runox_auto.py:166-173 | the password loop types into the first selector that is visible and accepts the text, and carries on silently when there is none |
| Renewal.OpenHome | runox_auto.py:107-112 | step 1 does what `RunStage(Open)` says: opening the home page raises or is followed by `01_homepage.png` |
| Renewal.AcceptCookies | runox_auto.py:114-128 | step 2 does what `RunStage(Cookie)` says: the banner click is optional and `02_after_cookie.png` is saved either way |
| Renewal.ClickMandatory | runox_auto.py:130-220 | steps 3, 6 and 7 do what `RunStage` says: click, then save the progress screenshot and, after steps 3 and 6, read the URL, which may raise; or save the error screenshot and raise |
| Renewal.EnterCredentials | runox_auto.py:147-175 | step 4 does what `RunStage(Credentials)` says |
| Renewal.PassCaptcha | runox_auto.py:177-187 | step 5 does what `RunStage(Captcha)` says: captcha failures are swallowed and `05_after_captcha.png` is saved |
| Renewal.ClickRestore | runox_auto.py:222-235 | step 8 does what `RunStage(Restore)` says: click Start / Restore, or save `08_no_restore.png` |
| Renewal.ClickStart | runox_auto.py:237-247 | step 9 does what `RunStage(Start)` says and never raises |
| Renewal.SaveFinal | runox_auto.py:249-250 | the final screenshot does what `RunStage(Finish)` says |
| Renewal.ReachLogin | runox_auto.py:107-145 | steps 1-3 stop with the exception raised, or leave the chain to go on from the credentials step |
| Renewal.LogInForm | runox_auto.py:147-205 | steps 4-6 stop with the exception raised, or leave the chain to go on from Manage |
| Renewal.StartServer | runox_auto.py:222-250 | steps 8, 9 and the final screenshot end the chain as `ChainFrom(Restore)` says |
| Renewal.RunChain | runox_auto.py:104-250 | the body of the `try` ends as `Chain` says: the first exception raised stops it, and the session is the one the chain leaves |
| Renewal.Run | runox_auto.py:90-261 | `run` returns the outcome, leaves the session and makes exactly the posts that `RunReport` and `Posts` describe |
| RunProperties.ClickFirstShortCircuits | runox_auto.py:64-72 | `try_click` waits on the selectors in order up to the first hit and on no later one; it reports failure only after waiting on all of them, and then has clicked nothing |
| RunProperties.FindVisibleFirst | runox_auto.py:149-158 | the email loop (`FindVisible`) takes the first selector that becomes visible and waits on no later one, clicks and types nothing, and finds none only after waiting on every selector |
| RunProperties.TypeFirstHit | runox_auto.py:166-173 | the password loop (`TypeFirst`) types exactly once, into the first selector that is visible and accepts the text, and waits on no later one; with no such selector it types nothing after waiting on all of them |
| RunProperties.MandatoryClickHalts | runox_auto.py:130-141 | `RunStage` of Log In, submit and Manage stops on the step's error (unresolved, or its error screenshot failing) exactly when none of their selectors can be clicked |
| RunProperties.EmailStrict | runox_auto.py:149-162 | the credentials step halts on `error_no_form.png` exactly when no email selector becomes visible |
| RunProperties.PasswordLenient | runox_auto.py:166-175 | once the email is typed, the step goes on exactly when `04_after_input.png` can be saved, whether or not a password field was found |
| RunProperties.OptionalNeverHalts | runox_auto.py:114-247 | the cookie banner, Cloudflare and Start / Restore stop the run only through a failed screenshot, and Start never stops it |
| RunProperties.RestoreSkipped | runox_auto.py:224-234 | an unresolved Start / Restore adds `08_no_restore.png` and nothing else |
| RunProperties.OpenBehaves | runox_auto.py:107-112 | opening adds `01_homepage.png` or fails to open or to save |
| RunProperties.CookieBehaves | runox_auto.py:114-128 | the cookie step adds `02_after_cookie.png` or fails to save it |
| RunProperties.LogInBehaves | runox_auto.py:130-144 | Log In adds `03_loginpage.png`, or halts after saving its error screenshot |
| RunProperties.CredentialsBehaves | runox_auto.py:147-175 | the credentials step adds `04_after_input.png`, halts after `error_no_form.png`, or fails to type the email |
| RunProperties.CaptchaBehaves | runox_auto.py:177-187 | the captcha step adds `05_after_captcha.png` or fails to save it |
| RunProperties.SubmitBehaves | runox_auto.py:189-205 | submit adds `06_after_login.png`, or halts after saving its error screenshot |
| RunProperties.ManageBehaves | runox_auto.py:207-220 | Manage adds `07_after_manage.png`, or halts after saving its error screenshot |
| RunProperties.RestoreBehaves | runox_auto.py:222-235 | Start / Restore adds nothing when clicked and `08_no_restore.png` when not |
| RunProperties.StartBehaves | runox_auto.py:237-247 | Start adds no screenshot |
| RunProperties.FinishBehaves | runox_auto.py:249-250 | the final step adds `09_final.png` or fails to save it |
| RunProperties.StageBehaves | runox_auto.py:107-250 | every `RunStage` step either goes on, adding its own screenshots, or stops; an unresolved stop happens only at a mandatory step, after its error screenshot; a failed URL read only at Log In or submit; for Start / Restore the screenshots depend on whether its `try_click` clicked |
| RunProperties.ChainThrough | runox_auto.py:104-250 | `ChainFrom` any step is the steps up to a later step (`Reach`), stopping at the first exception, then `ChainFrom` that step |
| RunProperties.TrailFrom | runox_auto.py:107-250 | a chain that goes on from a step to the end adds the screenshots of every step from there, in order; `restored` is whether `try_click` clicked Start / Restore on the session the chain reached it with |
| RunProperties.WholeTrail | runox_auto.py:107-250 | the screenshots of all steps are the seven progress screenshots, then `08_no_restore.png` if Start / Restore was not clicked, then `09_final.png` |
| RunProperties.SuccessTrace | runox_auto.py:104-250 | a successful `Chain` saves exactly the seven progress screenshots, then `08_no_restore.png` exactly when the Start / Restore `try_click` on the session reached at step 8 clicked nothing, then `09_final.png` |
| RunProperties.Ordered | runox_auto.py:112-250 | increasing step numbers between neighbours mean increasing step numbers and increasing file names throughout |
| RunProperties.TraceAscends | runox_auto.py:112-250 | both success traces have increasing step numbers |
| RunProperties.SuccessOrdered | runox_auto.py:112-250 | in a successful run on a fresh session the screenshots' file names sort in the order they were taken |
| RunProperties.OnlyShotsFailLate | runox_auto.py:222-250 | after Manage, only a screenshot that cannot be saved stops the run |
| RunProperties.HaltFrom | runox_auto.py:130-220 | the chain stops on an unresolved step only at a mandatory step, with the screenshots of the steps before it and that step's error screenshot |
| RunProperties.BetweenIsProgress | runox_auto.py:107-220 | the steps before a mandatory step take the progress screenshots in order |
| RunProperties.MandatoryHalt | runox_auto.py:130-220 | when a mandatory step does not resolve, the run saves the progress screenshots before it and its error screenshot, and no later screenshot |
| RunProperties.RunEnds | runox_auto.py:249-261 | by `RunReport`, a run is renewed with one success notice offering `09_final.png`, the last screenshot; or failed with `error.png` saved last, one failure notice offering it and the chain's exception unchanged; or failed because `error.png` could not be saved, with no notice |
| RunProperties.OnePost | runox_auto.py:249-260 | a run makes at most one post and none unless both settings are set; when it has a notice and both are set, the post is a photo of the screenshot the notice names, with the notice's text as caption |
| Batch.Kept | runox_auto.py:270-271 | a part contributes at most one entry, and none exactly when it is blank |
| Batch.Entries | runox_auto.py:269-271 | the entries are at most as many as the parts and none of them is empty |
| Batch.AttemptOf | runox_auto.py:272-275 | an entry's attempt names the entry and fails in the constructor exactly when the entry has no `:` or the artifacts directory cannot be created |
| Batch.PartAttempts | runox_auto.py:270-275 | a part is attempted once under its stripped text unless it is blank |
| Batch.TryEntry | runox_auto.py:272-275 | one iteration's `try` yields the attempt `AttemptOf` describes and makes that entry's posts; a constructor error is caught before any browser is opened |
| Batch.TryPart | runox_auto.py:270-275 | one iteration strips the part and tries it unless it is blank |
| Batch.NextPart | runox_auto.py:269-275 | one pass of the loop extends the attempts and the posts by those of the next part |
| Batch.TryParts | runox_auto.py:269-275 | the loop makes exactly the attempts and posts of every part, in order (`AttemptsUpTo`, `PostsUpTo`) |
| Batch.RunBatch | runox_auto.py:264-275 | an empty variable gives exit code 1, no attempt and no post; otherwise every comma-separated part is tried in order and the exit code is 0 |
| Batch.EveryEntryAttempted | runox_auto.py:269-275 | failure isolation: `AttemptsUpTo` holds exactly one attempt per non-blank entry, in input order, whatever became of the earlier ones |
| Batch.PostsPerEntry | runox_auto.py:269-275 | `PostsUpTo` holds at most one post per non-blank entry, and none unless both Telegram settings are set |
| Batch.SplitBlank | runox_auto.py:269 | a string of whitespace and commas splits into blank parts only |
| Batch.BlankParts | runox_auto.py:270-271 | blank parts give no entries |
| Batch.BlankVariable | runox_auto.py:265-271 | a non-empty variable of whitespace and commas passes the emptiness test but yields no entry and no attempt |
| Batch.EntryPosts | runox_auto.py:272-275 | a malformed entry fails with the constructor's error and posts nothing, and so does one whose artifacts directory cannot be created; any entry makes at most one post, and none without both settings |
| Batch.TwoEntries | runox_auto.py:269-271 | two stripped, comma-free entries joined by a comma are two entries and two attempts, in order |

## Left out

- Browser launch (`SB(...)`, lines 95-103): the session options and the proxy are not modelled. Every run starts from a fresh session, and the guaranteed teardown of the `with` block is implicit. A launch that raises is not modelled: it happens outside the `try`, so the real run then fails with no screenshot and no notification, while every modelled run gets a browser.
- The browser engine and the Cloudflare captcha solver are foreign code. They are the `Script` oracle: its answers are parameters, not computed.
- Sleeps (`hw`, `time.sleep`) and random delays are left out. Their only effect is time, which the oracle's timeouts stand in for.
- Logging, the `[DEBUG]` prints, the traceback print and the batch warning at line 275 only write text. They are not modelled. The URL that `get_current_url` returns is not modelled either, only whether the call raises.
- `DISPLAY`/`XAUTHORITY` setup changes the process environment only and is not modelled. `os.makedirs` is modelled only by whether it raises; the directory it creates is not.
- The HTTP requests of `send_tg`, the 15-second timeout and opening the photo file are left out. `Notify.Telegram.Send` records the request it would post, and a failed post has no effect on the caller.
- `os.path.exists(photo_path)` is modelled as "the screenshot was saved in this session". Files left by earlier runs are not modelled.
- Renewal.Reason: the texts of exceptions raised by the browser library are not modelled and read `browser error`. The four messages the code raises itself are exact.
- Batch.RunBatch: the exit code is returned, not delivered by `exit`. The per-part sessions are parameters (`sessions(i)` for part `i`).
- Renewal.Path: the path is `artifacts/<name>`; the code joins the file name to the absolute `artifacts` directory beside the script (lines 49, 59). That prefix is the same for every run and is left out.
- Notify.Delivery: the `requests.post` form fields are reduced to the token, chat id, text or caption and photo path.
