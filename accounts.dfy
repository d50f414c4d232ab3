/**
 * Account entries: the `email:password` strings of the batch variable, the
 * Python string operations the entries go through (`strip`, `split`) and the
 * parsing done by the renewal object's constructor.
 */
module Accounts {
  import opened Wrappers

  /** The characters for which Python's `str.isspace()` holds; `str.strip()` removes them. */
  predicate IsSpace(c: char) {
    c in {' ', '\t', '\n', '\r', '\U{0B}', '\U{0C}', '\U{1C}', '\U{1D}', '\U{1E}', '\U{1F}',
          '\U{85}', '\U{A0}', '\U{1680}', '\U{2028}', '\U{2029}', '\U{202F}', '\U{205F}', '\U{3000}'}
    || '\U{2000}' <= c <= '\U{200A}'
  }

  /** `s` without its leading whitespace. */
  function TrimStart(s: string): (r: string)
    ensures |r| <= |s| && r == s[|s| - |r|..]
    ensures forall i :: 0 <= i < |s| - |r| ==> IsSpace(s[i])
    ensures r == [] || !IsSpace(r[0])
    decreases |s|
  {
    if |s| > 0 && IsSpace(s[0]) then TrimStart(s[1..]) else s
  }

  /** `s` without its trailing whitespace. */
  function TrimEnd(s: string): (r: string)
    ensures |r| <= |s| && r == s[..|r|]
    ensures forall i :: |r| <= i < |s| ==> IsSpace(s[i])
    ensures r == [] || !IsSpace(r[|r| - 1])
    decreases |s|
  {
    if |s| > 0 && IsSpace(s[|s| - 1]) then TrimEnd(s[..|s| - 1]) else s
  }

  /** A string made only of whitespace. */
  predicate Blank(s: string) {
    forall i :: 0 <= i < |s| ==> IsSpace(s[i])
  }

  /** Python's `str.strip()` with no argument. */
  function Strip(s: string): (r: string)
    ensures |r| <= |s|
    ensures r == [] || (!IsSpace(r[0]) && !IsSpace(r[|r| - 1]))
    ensures r == [] <==> forall i :: 0 <= i < |s| ==> IsSpace(s[i])
    ensures (forall i :: 0 <= i < |s| ==> !IsSpace(s[i])) ==> r == s
  {
    var t := TrimStart(s);
    var r := TrimEnd(t);
    assert (forall i :: 0 <= i < |s| ==> IsSpace(s[i])) ==> t == [] by {
      if t != [] {
        assert t[0] == s[|s| - |t|];
      }
    }
    r
  }

  /** `r` is the slice of `s` at `i`, with only whitespace before and after it. */
  predicate CutAt(s: string, r: string, i: int) {
    0 <= i <= |s| - |r| && r == s[i..i + |r|] && Blank(s[..i]) && Blank(s[i + |r|..])
  }

  /**
   * `Strip` only cuts whitespace: its result is a slice of the input, and
   * what lies before and after that slice is whitespace. With `Strip`'s own
   * contract (no whitespace at either end of the result) this fixes the
   * result.
   */
  lemma StripCutsWhitespace(s: string)
    ensures exists i :: CutAt(s, Strip(s), i)
  {
    var t := TrimStart(s);
    var r := TrimEnd(t);
    var i := |s| - |t|;
    assert Blank(s[..i]);
    TrimEndCut(t);
    assert s[i..] == t;
    assert s[i..i + |r|] == t[..|r|];
    assert s[i + |r|..] == t[|r|..];
    assert CutAt(s, r, i);
    assert r == Strip(s);
  }

  /** What `TrimEnd` cuts off is whitespace. */
  lemma TrimEndCut(t: string)
    ensures Blank(t[|TrimEnd(t)|..])
  {
    var after := t[|TrimEnd(t)|..];
    forall k | 0 <= k < |after|
      ensures IsSpace(after[k])
    {
      assert after[k] == t[|TrimEnd(t)| + k];
    }
  }

  /** A string made only of whitespace strips to nothing. */
  lemma StripBlank(s: string)
    requires Blank(s)
    ensures Strip(s) == []
  {
  }

  /** Stripping a stripped string changes nothing. */
  lemma StripIdempotent(s: string)
    ensures Strip(Strip(s)) == Strip(s)
  {
    var r := Strip(s);
    assert TrimStart(r) == r;
    assert TrimEnd(r) == r;
  }

  /** The number of occurrences of `c` in `s`. */
  function Count(s: string, c: char): (n: nat)
    ensures n <= |s|
    ensures n == 0 <==> c !in s
  {
    if s == [] then 0 else (if s[0] == c then 1 else 0) + Count(s[1..], c)
  }

  /**
   * Python's `s.split(sep)` with an explicit separator: every occurrence of
   * `sep` cuts, consecutive separators give empty parts, and the result is
   * never empty (`"".split(sep) == [""]`).
   */
  function Split(s: string, sep: char): (parts: seq<string>)
    ensures |parts| == Count(s, sep) + 1
    ensures forall k :: 0 <= k < |parts| ==> sep !in parts[k]
    decreases |s|
  {
    if s == [] then [[]]
    else
      var rest := Split(s[1..], sep);
      if s[0] == sep then [[]] + rest
      else
        assert forall k :: 1 <= k < |rest| ==> ([[s[0]] + rest[0]] + rest[1..])[k] == rest[k];
        [[s[0]] + rest[0]] + rest[1..]
  }

  /** Python's `sep.join(parts)`: the inverse of `Split`. */
  function Join(parts: seq<string>, sep: char): string
  {
    if parts == [] then []
    else if |parts| == 1 then parts[0]
    else parts[0] + [sep] + Join(parts[1..], sep)
  }

  /** Joining the parts of a split gives back the original string. */
  lemma {:induction false} JoinSplit(s: string, sep: char)
    ensures Join(Split(s, sep), sep) == s
    decreases |s|
  {
    if s != [] {
      var rest := Split(s[1..], sep);
      JoinSplit(s[1..], sep);
      if s[0] == sep {
        assert Split(s, sep) == [[]] + rest;
        assert ([[]] + rest)[1..] == rest;
      } else {
        assert Split(s, sep) == [[s[0]] + rest[0]] + rest[1..];
        JoinHead(s[0], rest, sep);
        assert [s[0]] + s[1..] == s;
      }
    }
  }

  /** A character put in front of the first part ends up in front of the join. */
  lemma JoinHead(c: char, parts: seq<string>, sep: char)
    requires parts != []
    ensures Join([[c] + parts[0]] + parts[1..], sep) == [c] + Join(parts, sep)
  {
    var glued := [[c] + parts[0]] + parts[1..];
    if |parts| > 1 {
      assert glued[1..] == parts[1..];
      var tail := [sep] + Join(parts[1..], sep);
      assert ([c] + parts[0]) + tail == [c] + (parts[0] + tail);
    }
  }

  /** Splitting a separator-free prefix glued to `t` only extends `t`'s first part. */
  lemma {:induction false} SplitGlue(p: string, t: string, sep: char)
    requires sep !in p
    ensures Split(p + t, sep) == [p + Split(t, sep)[0]] + Split(t, sep)[1..]
    decreases |p|
  {
    var st := Split(t, sep);
    if p == [] {
      assert p + t == t && p + st[0] == st[0];
    } else {
      assert p[0] in p;
      var q := p[1..] + t;
      assert p + t == [p[0]] + q;
      SplitGlue(p[1..], t, sep);
      SplitCons(p[0], q, sep);
      Uncons(p, st[0]);
    }
  }

  /** Putting the head back on the tail of a non-empty `p`. */
  lemma Uncons<T>(p: seq<T>, x: seq<T>)
    requires p != []
    ensures [p[0]] + (p[1..] + x) == p + x
  {
    assert [p[0]] + p[1..] == p;
  }

  /** A character other than the separator joins the first part. */
  lemma SplitCons(c: char, s: string, sep: char)
    requires c != sep
    ensures Split([c] + s, sep) == [[c] + Split(s, sep)[0]] + Split(s, sep)[1..]
  {
    assert ([c] + s)[0] == c && ([c] + s)[1..] == s;
  }

  /** Splitting the join of separator-free parts gives back those parts. */
  lemma {:induction false} SplitJoin(parts: seq<string>, sep: char)
    requires parts != []
    requires forall k :: 0 <= k < |parts| ==> sep !in parts[k]
    ensures Split(Join(parts, sep), sep) == parts
    decreases |parts|
  {
    if |parts| == 1 {
      SplitGlue(parts[0], [], sep);
      assert parts[0] + [] == parts[0];
    } else {
      var tail := Join(parts[1..], sep);
      SplitJoin(parts[1..], sep);
      assert Join(parts, sep) == parts[0] + ([sep] + tail);
      SplitGlue(parts[0], [sep] + tail, sep);
      assert ([sep] + tail)[0] == sep && ([sep] + tail)[1..] == tail;
      var st := Split([sep] + tail, sep);
      assert st == [[]] + parts[1..];
      assert st[0] == [] && st[1..] == parts[1..];
      assert parts[0] + [] == parts[0];
      assert [parts[0]] + parts[1..] == parts;
    }
  }

  /** One account of the batch. */
  datatype Account = Account(email: string, password: string)

  /**
   * The exceptions the renewal object's constructor raises: the `ValueError`
   * for an entry without a `:`, and a failure of `os.makedirs` to create the
   * artifacts directory.
   */
  datatype InitError = Malformed(entry: string) | NoArtifactsDir

  /**
   * The renewal object's constructor: strip the entry and split it on every
   * `:`; fewer than two parts is an error, otherwise the first part is the
   * email and the second the password. Later parts are dropped and empty
   * fields are accepted.
   */
  function ParseAccount(acc: string): (r: Result<Account, InitError>)
    ensures r.Err? <==> ':' !in Strip(acc)
    ensures r.Err? ==> r.error == Malformed(acc)
    ensures r.Ok? ==> ':' !in r.value.email && ':' !in r.value.password
    ensures r.Ok? ==> Leads(Strip(acc), ':', r.value.email, r.value.password)
  {
    var t := Strip(acc);
    var parts := Split(t, ':');
    Fields(t, ':');
    if |parts| < 2 then Err(Malformed(acc))
    else Ok(Account(parts[0], parts[1]))
  }

  /**
   * A split has a second part exactly when the separator occurs, and then
   * its first two parts are free of it and are the text up to the first and
   * the second separator.
   */
  lemma Fields(t: string, sep: char)
    ensures var parts := Split(t, sep);
      && (|parts| < 2 <==> sep !in t)
      && (|parts| >= 2 ==> sep !in parts[0] && sep !in parts[1])
      && (|parts| >= 2 ==> Leads(t, sep, parts[0], parts[1]))
  {
    if |Split(t, sep)| >= 2 {
      FirstTwoFields(t, sep);
    }
  }

  /**
   * `t` starts with `first`, the separator and `second`, and then ends or
   * goes on with another separator.
   */
  predicate Leads(t: string, sep: char, first: string, second: string) {
    var n := |first| + 1 + |second|;
    n <= |t| && t[..n] == first + [sep] + second && (n == |t| || t[n] == sep)
  }

  /** The first two parts of a split are the text up to the first and the second separator. */
  lemma FirstTwoFields(t: string, sep: char)
    requires |Split(t, sep)| >= 2
    ensures var parts := Split(t, sep); Leads(t, sep, parts[0], parts[1])
  {
    var parts := Split(t, sep);
    JoinSplit(t, sep);
    var n := |parts[0]| + 1 + |parts[1]|;
    if |parts| == 2 {
      assert parts[1..] == [parts[1]];
      assert t == parts[0] + [sep] + parts[1];
    } else {
      assert Join(parts[1..], sep) == parts[1] + [sep] + Join(parts[2..], sep);
      assert t == (parts[0] + [sep] + parts[1]) + ([sep] + Join(parts[2..], sep));
    }
  }

  /**
   * The converse of `ParseAccount`'s contract: an entry whose stripped text is
   * `email:password` followed by nothing or by another `:`-field parses to
   * exactly that email and password.
   */
  lemma ParseOfFields(acc: string, email: string, password: string, rest: string)
    requires ':' !in email && ':' !in password
    requires rest == [] || rest[0] == ':'
    requires Strip(acc) == email + [':'] + password + rest
    ensures ParseAccount(acc) == Ok(Account(email, password))
  {
    assert Strip(acc) == email + [':'] + (password + rest);
    SplitAfter(email, password + rest, ':');
    SplitUpTo(password, rest, ':');
  }

  /** A separator-free `p` followed by the separator is the first part, whatever follows. */
  lemma SplitAfter(p: string, t: string, sep: char)
    requires sep !in p
    ensures Split(p + [sep] + t, sep) == [p] + Split(t, sep)
  {
    var u := [sep] + t;
    assert p + [sep] + t == p + u;
    SplitGlue(p, u, sep);
    assert u[0] == sep && u[1..] == t;
    assert Split(u, sep) == [[]] + Split(t, sep);
    assert p + [] == p;
  }

  /** A separator-free `p` followed by nothing or by the separator is the first part. */
  lemma SplitUpTo(p: string, rest: string, sep: char)
    requires sep !in p
    requires rest == [] || rest[0] == sep
    ensures Split(p + rest, sep)[0] == p
  {
    SplitGlue(p, rest, sep);
    if rest != [] {
      assert Split(rest, sep) == [[]] + Split(rest[1..], sep);
    }
    assert p + [] == p;
  }

  /** A string that neither starts nor ends with whitespace is left alone by `Strip`. */
  lemma StripUnchanged(s: string)
    requires s == [] || (!IsSpace(s[0]) && !IsSpace(s[|s| - 1]))
    ensures Strip(s) == s
  {
  }

  /** An ordinary `email:password` entry. */
  lemma ParsePlainEntry()
    ensures ParseAccount("a@x.com:p1") == Ok(Account("a@x.com", "p1"))
  {
    StripUnchanged("a@x.com:p1");
    ParseOfFields("a@x.com:p1", "a@x.com", "p1", "");
  }

  /** An entry without a colon is rejected. */
  lemma ParseNoColon()
    ensures ParseAccount("bad-entry") == Err(Malformed("bad-entry"))
  {
    var e := "bad-entry";
    StripUnchanged(e);
    assert forall i :: 0 <= i < |e| ==> e[i] != ':';
  }

  /** A password holding a colon is cut at that colon. */
  lemma ParseTruncatesPassword()
    ensures ParseAccount("u@x.com:pa:ss") == Ok(Account("u@x.com", "pa"))
  {
    StripUnchanged("u@x.com:pa:ss");
    ParseOfFields("u@x.com:pa:ss", "u@x.com", "pa", ":ss");
  }

  /** Empty fields are not rejected: a lone colon is an account with empty email and password. */
  lemma ParseEmptyFields()
    ensures ParseAccount(":") == Ok(Account("", ""))
  {
    StripUnchanged(":");
    ParseOfFields(":", "", "", "");
  }
}
