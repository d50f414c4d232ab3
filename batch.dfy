/**
 * The batch driver: the `__main__` block of `runox_auto.py`. The variable
 * `RUNOX_ACCOUNTS` is split on `,`, every part is stripped, blank parts are
 * skipped, and every other part gets its own renewal whose failure, at
 * parsing or during the run, is caught so that the next part is still tried.
 */
module Batch {
  import opened Wrappers
  import opened Accounts
  import opened Browsing
  import opened Notify
  import opened Renewal
  import opened RunProperties

  /** What became of one non-blank entry: its parse error, or the outcome of its run. */
  datatype Attempt = Attempt(entry: string, result: Result<Outcome, InitError>)

  /** What one part contributes: its stripped text, unless that is empty. */
  function Kept(part: string): (es: seq<string>)
    ensures |es| <= 1 && (es == [] <==> Strip(part) == [])
  {
    if Strip(part) == [] then [] else [Strip(part)]
  }

  /** The entries of the first `n` parts, in order: the stripped parts that are not blank. */
  function Entries(parts: seq<string>, n: nat): (es: seq<string>)
    requires n <= |parts|
    ensures |es| <= n
    ensures forall k :: 0 <= k < |es| ==> es[k] != []
  {
    if n == 0 then [] else Entries(parts, n - 1) + Kept(parts[n - 1])
  }

  /** The attempts `a` were made for the entries `es`, one each, in order. */
  predicate For(a: seq<Attempt>, es: seq<string>) {
    |a| == |es| && forall k :: 0 <= k < |a| ==> a[k].entry == es[k]
  }

  /**
   * One entry on its own: the constructor, then `run` on a fresh browser
   * session driven by `sc`. Either failure is caught, so an attempt always
   * has a result.
   */
  function AttemptOf(entry: string, sc: Script): (a: Attempt)
    ensures a.entry == entry
    ensures a.result.Err? <==> ':' !in Strip(entry) || sc.dirFails
  {
    match Construct(entry, sc)
    case Err(e) => Attempt(entry, Err(e))
    case Ok(acc) => Attempt(entry, Ok(RunReport(sc, acc, Fresh).outcome))
  }

  /** The posts one entry makes: none when the constructor raises, otherwise those of its run. */
  function PostsOf(cfg: TgConfig, entry: string, sc: Script): seq<Request> {
    match Construct(entry, sc)
    case Err(_) => []
    case Ok(acc) => Posts(cfg, RunReport(sc, acc, Fresh))
  }

  /** The attempt made for one part: none when it is blank. */
  function PartAttempts(part: string, sc: Script): (a: seq<Attempt>)
    ensures For(a, Kept(part))
  {
    if Strip(part) == [] then [] else [AttemptOf(Strip(part), sc)]
  }

  /** The posts made for one part: none when it is blank. */
  function PartPosts(cfg: TgConfig, part: string, sc: Script): seq<Request> {
    if Strip(part) == [] then [] else PostsOf(cfg, Strip(part), sc)
  }

  /** The attempts made for the first `n` parts; part `i` runs on the session `sessions(i)`. */
  function AttemptsUpTo(parts: seq<string>, sessions: nat -> Script, n: nat): seq<Attempt>
    requires n <= |parts|
  {
    if n == 0 then []
    else
      AttemptsUpTo(parts, sessions, n - 1) + PartAttempts(parts[n - 1], sessions(n - 1))
  }

  /** The posts made for the first `n` parts. */
  function PostsUpTo(cfg: TgConfig, parts: seq<string>, sessions: nat -> Script, n: nat): seq<Request>
    requires n <= |parts|
  {
    if n == 0 then []
    else
      PostsUpTo(cfg, parts, sessions, n - 1) + PartPosts(cfg, parts[n - 1], sessions(n - 1))
  }

  /**
   * The `try` of one iteration of the `__main__` loop: construct the renewal,
   * which raises on a malformed entry or when the artifacts directory cannot
   * be created, and run it on a fresh browser session; whatever either
   * raises is caught.
   */
  method TryEntry(entry: string, sc: Script, tg: Telegram) returns (attempt: Attempt)
    modifies tg
    ensures attempt == AttemptOf(entry, sc)
    ensures tg.sent == old(tg.sent) + PostsOf(tg.config, entry, sc)
  {
    var parsed := Construct(entry, sc);
    if parsed.Err? {
      return Attempt(entry, Err(parsed.error));
    }
    var sb := new Browser(sc);
    var outcome := Run(parsed.value, sb, tg);
    return Attempt(entry, Ok(outcome));
  }

  /** One iteration of the `__main__` loop: strip the part and try it unless it is blank. */
  method TryPart(part: string, sc: Script, tg: Telegram) returns (attempt: seq<Attempt>)
    modifies tg
    ensures attempt == PartAttempts(part, sc)
    ensures tg.sent == old(tg.sent) + PartPosts(tg.config, part, sc)
  {
    var entry := Strip(part);
    if entry == [] {
      return [];
    }
    var a := TryEntry(entry, sc, tg);
    return [a];
  }

  /** One pass of the loop body, from the state after `i` parts to the state after `i + 1`. */
  method NextPart(parts: seq<string>, sessions: nat -> Script, tg: Telegram, i: nat, attempts: seq<Attempt>, ghost start: seq<Request>) returns (next: seq<Attempt>)
    requires i < |parts|
    requires attempts == AttemptsUpTo(parts, sessions, i)
    requires tg.sent == start + PostsUpTo(tg.config, parts, sessions, i)
    modifies tg
    ensures next == AttemptsUpTo(parts, sessions, i + 1)
    ensures tg.sent == start + PostsUpTo(tg.config, parts, sessions, i + 1)
  {
    ghost var sent := tg.sent;
    var attempt := TryPart(parts[i], sessions(i), tg);
    next := attempts + attempt;
    Regroup(start, PostsUpTo(tg.config, parts, sessions, i), PartPosts(tg.config, parts[i], sessions(i)), sent, tg.sent);
  }

  /** The loop of the `__main__` block over the parts of the variable, in order. */
  method TryParts(parts: seq<string>, sessions: nat -> Script, tg: Telegram) returns (attempts: seq<Attempt>)
    modifies tg
    ensures attempts == AttemptsUpTo(parts, sessions, |parts|)
    ensures tg.sent == old(tg.sent) + PostsUpTo(tg.config, parts, sessions, |parts|)
  {
    attempts := [];
    var i := 0;
    while i < |parts|
      invariant 0 <= i <= |parts|
      invariant attempts == AttemptsUpTo(parts, sessions, i)
      invariant tg.sent == old(tg.sent) + PostsUpTo(tg.config, parts, sessions, i)
    {
      attempts := NextPart(parts, sessions, tg, i, attempts, old(tg.sent));
      i := i + 1;
    }
  }

  /**
   * The `__main__` block. An empty variable (unset reads as empty) exits
   * with code 1 before anything runs; otherwise every part is tried in turn,
   * whatever became of the previous ones, and the process ends normally.
   */
  method RunBatch(accounts: string, sessions: nat -> Script, tg: Telegram) returns (exitCode: int, attempts: seq<Attempt>)
    modifies tg
    ensures accounts == [] ==> exitCode == 1 && attempts == [] && tg.sent == old(tg.sent)
    ensures accounts != [] ==>
      var parts := Split(accounts, ',');
      && exitCode == 0
      && attempts == AttemptsUpTo(parts, sessions, |parts|)
      && tg.sent == old(tg.sent) + PostsUpTo(tg.config, parts, sessions, |parts|)
  {
    if accounts == [] {
      return 1, [];
    }
    attempts := TryParts(Split(accounts, ','), sessions, tg);
    exitCode := 0;
  }

  /**
   * Failure isolation: one attempt per entry, in input order, whatever
   * became of the entries before it.
   */
  lemma {:induction false} EveryEntryAttempted(parts: seq<string>, sessions: nat -> Script, n: nat)
    requires n <= |parts|
    ensures For(AttemptsUpTo(parts, sessions, n), Entries(parts, n))
  {
    if n == 0 {
      assert AttemptsUpTo(parts, sessions, n) == [] && Entries(parts, n) == [];
    } else {
      EveryEntryAttempted(parts, sessions, n - 1);
      AttemptedNext(parts, sessions, n);
    }
  }

  /** One more part keeps the attempts in step with the entries. */
  lemma AttemptedNext(parts: seq<string>, sessions: nat -> Script, n: nat)
    requires 0 < n <= |parts|
    requires For(AttemptsUpTo(parts, sessions, n - 1), Entries(parts, n - 1))
    ensures For(AttemptsUpTo(parts, sessions, n), Entries(parts, n))
  {
    var t := PartAttempts(parts[n - 1], sessions(n - 1));
    ForAppend(AttemptsUpTo(parts, sessions, n - 1), t, Entries(parts, n - 1), Kept(parts[n - 1]),
      AttemptsUpTo(parts, sessions, n), Entries(parts, n));
  }

  /** Attempts for two runs of entries, one after the other. */
  lemma ForAppend(a: seq<Attempt>, t: seq<Attempt>, e: seq<string>, k: seq<string>, at: seq<Attempt>, ek: seq<string>)
    requires For(a, e) && For(t, k)
    requires at == a + t && ek == e + k
    ensures For(at, ek)
  {
  }

  /** A string of whitespace and separators splits into parts of whitespace only. */
  lemma {:induction false} SplitBlank(s: string, sep: char)
    requires forall i :: 0 <= i < |s| ==> IsSpace(s[i]) || s[i] == sep
    ensures forall k :: 0 <= k < |Split(s, sep)| ==> Blank(Split(s, sep)[k])
    decreases |s|
  {
    if s != [] {
      SplitBlank(s[1..], sep);
      var parts, rest := Split(s, sep), Split(s[1..], sep);
      if s[0] == sep {
        assert forall k :: 1 <= k < |parts| ==> parts[k] == rest[k - 1];
      } else {
        assert parts[0] == [s[0]] + rest[0];
        assert forall k :: 1 <= k < |parts| ==> parts[k] == rest[k];
      }
    }
  }

  /** Parts made only of whitespace give no entries. */
  lemma {:induction false} BlankParts(parts: seq<string>, n: nat)
    requires n <= |parts|
    requires forall k :: 0 <= k < |parts| ==> Blank(parts[k])
    ensures Entries(parts, n) == []
  {
    if n > 0 {
      StripBlank(parts[n - 1]);
      BlankParts(parts, n - 1);
    }
  }

  /**
   * A variable that is not empty but holds only whitespace and commas
   * passes the emptiness test, yet yields no entries, so nothing is
   * attempted and the process still ends normally.
   */
  lemma BlankVariable(accounts: string, sessions: nat -> Script)
    requires accounts != []
    requires forall i :: 0 <= i < |accounts| ==> IsSpace(accounts[i]) || accounts[i] == ','
    ensures var parts := Split(accounts, ',');
      Entries(parts, |parts|) == [] && AttemptsUpTo(parts, sessions, |parts|) == []
  {
    var parts := Split(accounts, ',');
    SplitBlank(accounts, ',');
    BlankParts(parts, |parts|);
    EveryEntryAttempted(parts, sessions, |parts|);
  }

  /**
   * An entry that does not parse is attempted, fails with the constructor's
   * error, and posts nothing; so does one whose artifacts directory cannot
   * be created; any other entry posts at most once.
   */
  lemma EntryPosts(cfg: TgConfig, entry: string, sc: Script)
    ensures ParseAccount(entry).Err? ==>
      AttemptOf(entry, sc).result == Err(Malformed(entry)) && PostsOf(cfg, entry, sc) == []
    ensures ParseAccount(entry).Ok? && sc.dirFails ==>
      AttemptOf(entry, sc).result == Err(NoArtifactsDir) && PostsOf(cfg, entry, sc) == []
    ensures |PostsOf(cfg, entry, sc)| <= 1
    ensures !Set(cfg.token) || !Set(cfg.chatId) ==> PostsOf(cfg, entry, sc) == []
  {
    if Construct(entry, sc).Ok? {
      OnePost(cfg, sc, Construct(entry, sc).value, Fresh);
    }
  }

  /**
   * The whole batch posts at most once per entry, and posts nothing unless
   * both Telegram settings are present.
   */
  lemma {:induction false} PostsPerEntry(cfg: TgConfig, parts: seq<string>, sessions: nat -> Script, n: nat)
    requires n <= |parts|
    ensures |PostsUpTo(cfg, parts, sessions, n)| <= |Entries(parts, n)|
    ensures !Set(cfg.token) || !Set(cfg.chatId) ==> PostsUpTo(cfg, parts, sessions, n) == []
  {
    if n == 0 {
      assert PostsUpTo(cfg, parts, sessions, n) == [] && Entries(parts, n) == [];
    } else {
      var m := n - 1;
      PostsPerEntry(cfg, parts, sessions, m);
      PostsNext(cfg, parts, sessions, m);
    }
  }

  /** One more part keeps the posts within the entries. */
  lemma PostsNext(cfg: TgConfig, parts: seq<string>, sessions: nat -> Script, m: nat)
    requires m < |parts|
    requires |PostsUpTo(cfg, parts, sessions, m)| <= |Entries(parts, m)|
    requires !Set(cfg.token) || !Set(cfg.chatId) ==> PostsUpTo(cfg, parts, sessions, m) == []
    ensures |PostsUpTo(cfg, parts, sessions, m + 1)| <= |Entries(parts, m + 1)|
    ensures !Set(cfg.token) || !Set(cfg.chatId) ==> PostsUpTo(cfg, parts, sessions, m + 1) == []
  {
    PartPostsBound(cfg, parts[m], sessions(m));
  }

  /** A part posts at most once if it is an entry, never if it is blank, and never without both settings. */
  lemma PartPostsBound(cfg: TgConfig, part: string, sc: Script)
    ensures |PartPosts(cfg, part, sc)| <= |Kept(part)|
    ensures !Set(cfg.token) || !Set(cfg.chatId) ==> PartPosts(cfg, part, sc) == []
  {
    if Strip(part) != [] {
      EntryPosts(cfg, Strip(part), sc);
    }
  }

  /** Two parts that are already stripped and not empty are two entries, in order. */
  lemma TwoParts(parts: seq<string>, a: string, b: string)
    requires parts == [a, b] && a != [] && b != [] && Strip(a) == a && Strip(b) == b
    ensures Entries(parts, 2) == [a, b]
  {
    assert Entries(parts, 1) == [] + Kept(a);
  }

  /**
   * Two well-formed entries joined by a comma, such as
   * `a@x.com:p1,b@x.com:p2`, are two entries and two attempts, in order.
   */
  lemma TwoEntries(a: string, b: string, sessions: nat -> Script)
    requires a != [] && b != [] && ',' !in a && ',' !in b && Strip(a) == a && Strip(b) == b
    ensures var parts := Split(a + [','] + b, ',');
      && parts == [a, b]
      && Entries(parts, 2) == [a, b]
      && For(AttemptsUpTo(parts, sessions, 2), [a, b])
  {
    SplitJoin([a, b], ',');
    assert Join([a, b], ',') == a + [','] + Join([b], ',');
    TwoParts(Split(a + [','] + b, ','), a, b);
    EveryEntryAttempted(Split(a + [','] + b, ','), sessions, 2);
  }
}
