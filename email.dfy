/** The alert e-mail side of the bot (app/email/index.js): a mail's subject is
    cut into numeric tokens by the global regular expression
    `/(\d+.\d+|\d+)/g`, and the fourth token decides whether the mail is a
    "long" alert, a "short" alert or no alert at all. */
module AlertEmail {
  import opened Options
  import opened Constants

  /** `\d` of a JavaScript regular expression: an ASCII decimal digit. */
  predicate IsDigit(c: char) {
    '0' <= c <= '9'
  }

  /** The line terminators of ECMAScript, the only characters that `.` does
      not match (the regex has no `s` flag). */
  predicate IsLineTerminator(c: char) {
    c == '\n' || c == '\r' || c == '\U{2028}' || c == '\U{2029}'
  }

  predicate AllDigits(t: string) {
    forall k :: 0 <= k < |t| ==> IsDigit(t[k])
  }

  /** The end of the run of digits that starts at `i`. */
  function RunEnd(s: string, i: nat): (j: nat)
    requires i <= |s|
    ensures i <= j <= |s|
    ensures forall k :: i <= k < j ==> IsDigit(s[k])
    ensures j == |s| || !IsDigit(s[j])
    ensures i < |s| && IsDigit(s[i]) ==> i < j
    decreases |s| - i
  {
    if i < |s| && IsDigit(s[i]) then RunEnd(s, i + 1) else i
  }

  // ---------------------------------------------------------------------
  // The regular expression as a backtracking matcher runs it
  // ---------------------------------------------------------------------

  /** The first alternative `\d+.\d+` tried at `p` while its first `\d+`
      holds `k` digits. On failure the greedy `\d+` gives back one digit and
      the rest is tried again. Nothing follows the group in the pattern, so
      the first attempt that gets through `.\d+` is the match, and its second
      `\d+` keeps every digit it can take. */
  function FirstAlternative(s: string, p: nat, k: nat): (e: Option<nat>)
    requires p + k <= |s|
    requires forall i :: p <= i < p + k ==> IsDigit(s[i])
    ensures e.Some? ==> 0 < k && p + 3 <= e.value <= |s|
    decreases k
  {
    if k == 0 then None
    else if p + k + 1 < |s| && !IsLineTerminator(s[p + k]) && IsDigit(s[p + k + 1]) then
      Some(RunEnd(s, p + k + 1))
    else
      FirstAlternative(s, p, k - 1)
  }

  /** Where a match of `(\d+.\d+|\d+)` that starts exactly at `p` ends: the
      first alternative when it succeeds, otherwise the greedy `\d+`; no
      match unless a digit stands at `p`. */
  function MatchAt(s: string, p: nat): (e: Option<nat>)
    requires p <= |s|
    ensures e.Some? <==> p < |s| && IsDigit(s[p])
    ensures e.Some? ==> p < e.value <= |s|
  {
    if p < |s| && IsDigit(s[p]) then
      var q := RunEnd(s, p);
      match FirstAlternative(s, p, q - p)
      case Some(e) => Some(e)
      case None => Some(q)
    else
      None
  }

  /** The matches of the global regex from position `i` on: the search moves
      right until a match starts, and the next search begins where that
      match ended. Matches do not overlap and none is empty, so there are
      at most as many as characters left. */
  function MatchesFrom(s: string, i: nat): (r: seq<string>)
    requires i <= |s|
    ensures |r| <= |s| - i
    decreases |s| - i
  {
    if i == |s| then []
    else
      match MatchAt(s, i)
      case Some(e) => [s[i..e]] + MatchesFrom(s, e)
      case None => MatchesFrom(s, i + 1)
  }

  /** `subject.match(/(\d+.\d+|\d+)/g)`: `null` when nothing matches. */
  function MatchAll(s: string): (r: Option<seq<string>>)
    ensures r.Some? ==> r.value == MatchesFrom(s, 0) && |r.value| > 0
    ensures r.None? <==> forall k :: 0 <= k < |s| ==> !IsDigit(s[k])
  {
    NoMatchIffNoDigit(s, 0);
    var ts := MatchesFrom(s, 0);
    if ts == [] then None else Some(ts)
  }

  // ---------------------------------------------------------------------
  // What a match looks like
  // ---------------------------------------------------------------------

  /** Where the match starting at digit `p` ends, in closed form: the run of
      digits at `p`, lengthened by the character after it and a second run of
      digits when that character is not a line terminator and a digit
      follows it. */
  function TokenEnd(s: string, p: nat): nat
    requires p < |s| && IsDigit(s[p])
  {
    var q := RunEnd(s, p);
    if q + 1 < |s| && !IsLineTerminator(s[q]) && IsDigit(s[q + 1]) then RunEnd(s, q + 1) else q
  }

  /** `t` is digits, then the character at `m`, which is neither a digit nor a
      line terminator, then digits. */
  ghost predicate SplitAt(t: string, m: nat) {
    0 < m < |t| - 1 && AllDigits(t[..m]) && !IsDigit(t[m]) && !IsLineTerminator(t[m]) && AllDigits(t[m + 1..])
  }

  /** The shape of every token: a run of digits, or two runs of digits joined
      by one character that is not a line terminator. */
  ghost predicate IsToken(t: string) {
    (|t| > 0 && AllDigits(t)) || exists m: nat :: SplitAt(t, m)
  }

  /** Scanning a run of digits from any point inside it finds the same end. */
  lemma {:induction false} RunEndFrom(s: string, i: nat, j: nat)
    requires i <= j <= |s|
    requires forall k :: i <= k < j ==> IsDigit(s[k])
    requires j == |s| || !IsDigit(s[j])
    ensures RunEnd(s, i) == j
    decreases j - i
  {
    if i < j {
      RunEndFrom(s, i + 1, j);
    }
  }

  /** Backtracking inside the first run of digits can only stop at its end
      `q`: the `.` then eats a digit and the second `\d+` the rest of the run,
      which needs a run of at least three digits. */
  lemma {:induction false} BacktrackInsideRun(s: string, p: nat, k: nat)
    requires p < |s| && IsDigit(s[p])
    requires k < RunEnd(s, p) - p
    ensures FirstAlternative(s, p, k) == if k > 0 && RunEnd(s, p) - p >= 3 then Some(RunEnd(s, p)) else None
    decreases k
  {
    var q := RunEnd(s, p);
    if k > 0 {
      if p + k + 1 < q {
        RunEndFrom(s, p + k + 1, q);
      } else {
        BacktrackInsideRun(s, p, k - 1);
      }
    }
  }

  /** The backtracking matcher and the closed form agree. */
  lemma MatchAtIsTokenEnd(s: string, p: nat)
    requires p < |s| && IsDigit(s[p])
    ensures MatchAt(s, p) == Some(TokenEnd(s, p))
  {
    var q := RunEnd(s, p);
    if !(q + 1 < |s| && !IsLineTerminator(s[q]) && IsDigit(s[q + 1])) {
      BacktrackInsideRun(s, p, q - p - 1);
    }
  }

  /** The match at a digit has the shape of a token. */
  lemma TokenAtIsToken(s: string, p: nat)
    requires p < |s| && IsDigit(s[p])
    ensures IsToken(s[p..TokenEnd(s, p)])
  {
    var q := RunEnd(s, p);
    var e := TokenEnd(s, p);
    var t := s[p..e];
    if e != q {
      assert SplitAt(t, q - p) by {
        assert t[..q - p] == s[p..q];
        assert t[q - p + 1..] == s[q + 1..e];
      }
    }
  }

  /** Every match of the global regex is a token, so it starts and ends with
      a digit. */
  lemma {:induction false} MatchesAreTokens(s: string, i: nat)
    requires i <= |s|
    ensures forall t :: t in MatchesFrom(s, i) ==> IsToken(t) && IsDigit(t[0]) && IsDigit(t[|t| - 1])
    decreases |s| - i
  {
    if i < |s| {
      match MatchAt(s, i)
      case Some(e) =>
        MatchAtIsTokenEnd(s, i);
        TokenAtIsToken(s, i);
        TokenEnds(s[i..e]);
        MatchesAreTokens(s, e);
      case None =>
        MatchesAreTokens(s, i + 1);
    }
  }

  /** A token starts and ends with a digit. */
  lemma TokenEnds(t: string)
    requires IsToken(t)
    ensures |t| > 0 && IsDigit(t[0]) && IsDigit(t[|t| - 1])
  {
    if !(|t| > 0 && AllDigits(t)) {
      var m: nat :| SplitAt(t, m);
      assert t[0] == t[..m][0];
      assert t[|t| - 1] == t[m + 1..][|t| - 1 - (m + 1)];
    }
  }

  /** The global regex finds nothing exactly when no digit follows `i`. */
  lemma {:induction false} NoMatchIffNoDigit(s: string, i: nat)
    requires i <= |s|
    ensures MatchesFrom(s, i) == [] <==> forall k :: i <= k < |s| ==> !IsDigit(s[k])
    decreases |s| - i
  {
    if i < |s| {
      if MatchAt(s, i).None? {
        NoMatchIffNoDigit(s, i + 1);
      }
    }
  }

  /** Nothing before the first digit of the subject is skipped over wrongly:
      the first match begins at the first digit. */
  lemma {:induction false} FirstMatchAtFirstDigit(s: string, i: nat, p: nat)
    requires i <= p < |s| && IsDigit(s[p])
    requires forall k :: i <= k < p ==> !IsDigit(s[k])
    ensures MatchesFrom(s, i) != [] && MatchesFrom(s, i)[0] == s[p..TokenEnd(s, p)]
    decreases p - i
  {
    MatchAtIsTokenEnd(s, p);
    if i < p {
      FirstMatchAtFirstDigit(s, i + 1, p);
    }
  }

  /** Two runs of digits joined by a space are one token. */
  lemma SpaceJoinsRuns(a: string)
    requires a == "12 34"
    ensures MatchesFrom(a, 0) == ["12 34"]
  {
    RunEndFrom(a, 0, 2);
    RunEndFrom(a, 3, 5);
    MatchesFromDigit(a, 0);
    assert a[0..5] == a;
  }

  /** A line break separates tokens. */
  lemma LineBreakSeparates(b: string)
    requires b == "12\n34"
    ensures MatchesFrom(b, 0) == ["12", "34"]
  {
    RunEndFrom(b, 3, 5);
    MatchesFromDigit(b, 3);
    assert b[3..5] == "34";
    assert MatchesFrom(b, 2) == MatchesFrom(b, 3) == ["34"];
    RunEndFrom(b, 0, 2);
    MatchesFromDigit(b, 0);
    assert b[0..2] == "12";
  }

  /** Three single digits set apart by spaces: the first two merge. */
  lemma FirstPairMerges(c: string)
    requires c == "1 2 3"
    ensures MatchesFrom(c, 0) == ["1 2", "3"]
  {
    RunEndFrom(c, 4, 5);
    MatchesFromDigit(c, 4);
    assert c[4..5] == "3";
    assert MatchesFrom(c, 3) == MatchesFrom(c, 4) == ["3"];
    RunEndFrom(c, 0, 1);
    RunEndFrom(c, 2, 3);
    MatchesFromDigit(c, 0);
    assert c[0..3] == "1 2";
  }

  // ---------------------------------------------------------------------
  // Alerts
  // ---------------------------------------------------------------------

  /** The fields of a fetched mail that the parser reads: the subject, the
      date (milliseconds since the epoch) and the sender addresses. */
  datatype Mail = Mail(subject: string, date: int, from: seq<string>)

  /** The call `onAlert(price, side)`: the price is the subject's first
      token, verbatim. */
  datatype Alert = Alert(price: string, side: Side)

  /** `parseAlert`: an alert when the fourth token is "1111" (long) or "1000"
      (short). A subject without digits makes `match` return null and the
      indexing throw; a mail without a sender makes the log line throw before
      the callback is reached. Both errors are swallowed: no alert. */
  function ParseAlert(mail: Mail): (r: Option<Alert>)
    ensures r.Some? <==>
              && |mail.from| > 0
              && |MatchesFrom(mail.subject, 0)| >= 4
              && MatchesFrom(mail.subject, 0)[3] in {"1111", "1000"}
    ensures r.Some? ==> r.value.price == MatchesFrom(mail.subject, 0)[0]
    ensures r.Some? ==> (r.value.side == Long <==> MatchesFrom(mail.subject, 0)[3] == "1111")
  {
    match MatchAll(mail.subject)
    case None => None
    case Some(details) =>
      if |details| > 3 && (details[3] == "1111" || details[3] == "1000") then
        if |mail.from| == 0 then None
        else Some(Alert(details[0], if details[3] == "1111" then Long else Short))
      else
        None
  }

  /** The price of an alert is a numeric token, the one that begins at the
      first digit of the subject. */
  lemma AlertPriceIsLeadingToken(mail: Mail, p: nat)
    requires ParseAlert(mail).Some?
    requires p < |mail.subject| && IsDigit(mail.subject[p])
    requires forall k :: 0 <= k < p ==> !IsDigit(mail.subject[k])
    ensures IsToken(ParseAlert(mail).value.price)
    ensures ParseAlert(mail).value.price == mail.subject[p..TokenEnd(mail.subject, p)]
  {
    MatchesAreTokens(mail.subject, 0);
    FirstMatchAtFirstDigit(mail.subject, 0, p);
  }

  /** A subject without a digit never yields an alert. */
  lemma NoDigitNoAlert(mail: Mail)
    requires forall k :: 0 <= k < |mail.subject| ==> !IsDigit(mail.subject[k])
    ensures ParseAlert(mail).None?
  {
  }

  /** One step of the global search from a digit: the token there, then the
      search from its end. */
  lemma MatchesFromDigit(s: string, p: nat)
    requires p < |s| && IsDigit(s[p])
    ensures MatchesFrom(s, p) == [s[p..TokenEnd(s, p)]] + MatchesFrom(s, TokenEnd(s, p))
  {
    MatchAtIsTokenEnd(s, p);
  }

  /** Numbers set apart by a comma and a space are separate tokens. */
  lemma {:induction false} CommaSeparatedTokens(a: string)
    requires a == "9.5, 1, 2, 1000"
    ensures MatchesFrom(a, 0) == ["9.5", "1", "2", "1000"]
  {
    CommaSeparatedTail(a);
    RunEndFrom(a, 5, 6);
    MatchesFromDigit(a, 5);
    assert a[5..6] == "1";
    assert MatchesFrom(a, 3) == MatchesFrom(a, 4) == MatchesFrom(a, 5) == ["1", "2", "1000"];
    RunEndFrom(a, 0, 1);
    RunEndFrom(a, 2, 3);
    MatchesFromDigit(a, 0);
    assert a[0..3] == "9.5";
  }

  /** The last two tokens of the comma-separated example. */
  lemma {:induction false} CommaSeparatedTail(a: string)
    requires a == "9.5, 1, 2, 1000"
    ensures MatchesFrom(a, 6) == ["2", "1000"]
  {
    RunEndFrom(a, 11, 15);
    MatchesFromDigit(a, 11);
    assert a[11..15] == "1000";
    assert MatchesFrom(a, 9) == MatchesFrom(a, 10) == MatchesFrom(a, 11) == ["1000"];
    RunEndFrom(a, 8, 9);
    MatchesFromDigit(a, 8);
    assert a[8..9] == "2";
    assert MatchesFrom(a, 6) == MatchesFrom(a, 7) == MatchesFrom(a, 8);
  }

  /** Numbers set apart by single spaces merge: "1 2" is one token, and the
      code moves from the fourth token to the third. */
  lemma {:induction false} SpaceSeparatedTokens(b: string)
    requires b == "9.5 1 2 1000"
    ensures MatchesFrom(b, 0) == ["9.5", "1 2", "1000"]
  {
    RunEndFrom(b, 8, 12);
    MatchesFromDigit(b, 8);
    assert b[8..12] == "1000";
    assert MatchesFrom(b, 7) == MatchesFrom(b, 8) == ["1000"];
    RunEndFrom(b, 4, 5);
    RunEndFrom(b, 6, 7);
    MatchesFromDigit(b, 4);
    assert b[4..7] == "1 2";
    assert MatchesFrom(b, 3) == MatchesFrom(b, 4) == ["1 2", "1000"];
    RunEndFrom(b, 0, 1);
    RunEndFrom(b, 2, 3);
    MatchesFromDigit(b, 0);
    assert b[0..3] == "9.5";
  }

  /** A comma-separated subject with code 1000 is a short alert at its first
      number; the same numbers set apart by single spaces are no alert, since
      only three tokens remain; and a mail without a sender is none either. */
  lemma AlertExamples()
    ensures ParseAlert(Mail("9.5, 1, 2, 1000", 1, ["alerts@example.com"])) == Some(Alert("9.5", Short))
    ensures ParseAlert(Mail("9.5 1 2 1000", 1, ["alerts@example.com"])) == None
    ensures ParseAlert(Mail("9.5, 1, 2, 1000", 1, [])) == None
  {
    CommaSeparatedTokens("9.5, 1, 2, 1000");
    SpaceSeparatedTokens("9.5 1 2 1000");
  }

  /** The "mail" event handler: only mail dated strictly after the moment the
      module was loaded is parsed. */
  function OnMail(mail: Mail, startDateTime: int): (r: Option<Alert>)
    ensures r.Some? ==> mail.date > startDateTime
    ensures mail.date > startDateTime ==> r == ParseAlert(mail)
  {
    if mail.date > startDateTime then ParseAlert(mail) else None
  }
}
