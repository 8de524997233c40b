/** The commit gate (`gates.evaluate_commit_checks`): is this commit green enough to install? */
module CommitChecks {
  import opened Common
  import opened Sequences

  /** One check, in the REST shape (lower case) or the GraphQL rollup shape (upper case). */
  datatype Check = Check(status: Option<string>, state: Option<string>, conclusion: Option<string>)

  /** What `str.strip` strips of ASCII. */
  predicate Space(c: char) {
    c == ' ' || '\t' <= c <= '\r' || '\U{1c}' <= c <= '\U{1f}'
  }

  function UpperChar(c: char): char {
    if 'a' <= c <= 'z' then (c as int - 32) as char else c
  }

  function Upper(s: string): string {
    if s == "" then "" else [UpperChar(s[0])] + Upper(s[1..])
  }

  function StripLeft(s: string): string {
    if s != "" && Space(s[0]) then StripLeft(s[1..]) else s
  }

  function StripRight(s: string): string {
    if s != "" && Space(s[|s| - 1]) then StripRight(s[..|s| - 1]) else s
  }

  /** `_normalise_token`. */
  function Normalised(token: Option<string>): Option<string> {
    if token.None? then None else Some(Upper(StripRight(StripLeft(token.value))))
  }

  /** `_is_pending_check_normalised`: a status decides when there is one, else the state. */
  predicate Pending(c: Check) {
    if c.status.Some? then Normalised(c.status) != Some("COMPLETED") else Normalised(c.state) == Some("PENDING")
  }

  /** `_conclusion_of_normalised`; an empty conclusion falls through to the state. */
  function Conclusion(c: Check): Option<string> {
    Normalised(if c.conclusion.Some? && c.conclusion.value != "" then c.conclusion else c.state)
  }

  const ACCEPTED: set<string> := {"SUCCESS", "SKIPPED", "NEUTRAL"}

  predicate Accepted(c: Check) {
    Conclusion(c).Some? && Conclusion(c).value in ACCEPTED
  }

  predicate NotAccepted(c: Check) {
    !Accepted(c)
  }

  /** `evaluate_commit_checks`: fails closed on no checks, on any pending one, on any conclusion not known to be fine. */
  function EvaluateCommitChecks(checks: seq<Check>): (passed: bool)
    ensures passed <==> checks != [] && forall i :: 0 <= i < |checks| ==> !Pending(checks[i]) && Accepted(checks[i])
  {
    FilterEmpty(Pending, checks);
    FilterEmpty(NotAccepted, checks);
    if checks == [] then false
    else if Filter(Pending, checks) != [] then false
    else Filter(NotAccepted, checks) == []
  }

  /** The verdict in words: every check completed, or not pending where only a state is given, and concluded as a
      success, skipped or neutral. */
  lemma VerdictInWords(checks: seq<Check>)
    ensures EvaluateCommitChecks(checks) <==>
              && checks != []
              && forall i :: 0 <= i < |checks| ==>
                   var c := checks[i];
                   && (if c.status.Some? then Normalised(c.status) == Some("COMPLETED") else Normalised(c.state) != Some("PENDING"))
                   && Normalised(if c.conclusion.Some? && c.conclusion.value != "" then c.conclusion else c.state)
                      in {Some("SUCCESS"), Some("SKIPPED"), Some("NEUTRAL")}
  {
    forall i | 0 <= i < |checks|
      ensures !Pending(checks[i]) <==> if checks[i].status.Some? then Normalised(checks[i].status) == Some("COMPLETED")
                                       else Normalised(checks[i].state) != Some("PENDING")
      ensures Accepted(checks[i]) <==>
                Normalised(if checks[i].conclusion.Some? && checks[i].conclusion.value != "" then checks[i].conclusion
                           else checks[i].state) in {Some("SUCCESS"), Some("SKIPPED"), Some("NEUTRAL")}
    {
    }
  }

  /** What is normalised is the text between the blanks around it, in capitals. */
  lemma NormalisedMeans(s: string) returns (i: nat, j: nat)
    ensures i <= j <= |s| && Normalised(Some(s)) == Some(Upper(s[i..j]))
    ensures forall k :: (0 <= k < i || j <= k < |s|) ==> s[k] in " \t\n\U{b}\U{c}\r\U{1c}\U{1d}\U{1e}\U{1f}"
    ensures i < j ==> s[i] !in " \t\n\U{b}\U{c}\r\U{1c}\U{1d}\U{1e}\U{1f}" && s[j - 1] !in " \t\n\U{b}\U{c}\r\U{1c}\U{1d}\U{1e}\U{1f}"
  {
    i := LeftBlanks(s);
    var rest := s[i..];
    j := RightBlanks(rest);
    j := i + j;
    assert rest[..j - i] == s[i..j];
    forall k | 0 <= k < |s| ensures Space(s[k]) <==> s[k] in " \t\n\U{b}\U{c}\r\U{1c}\U{1d}\U{1e}\U{1f}" {
      Blanks(s[k]);
    }
    forall k | j <= k < |s| ensures Space(s[k]) {
      assert rest[k - i] == s[k];
    }
  }

  lemma Blanks(c: char)
    ensures Space(c) <==> c in " \t\n\U{b}\U{c}\r\U{1c}\U{1d}\U{1e}\U{1f}"
  {
    var blanks := " \t\n\U{b}\U{c}\r\U{1c}\U{1d}\U{1e}\U{1f}";
    assert blanks[0] == ' ' && blanks[1] == '\t' && blanks[2] == '\n' && blanks[3] == '\U{b}' && blanks[4] == '\U{c}';
    assert blanks[5] == '\r' && blanks[6] == '\U{1c}' && blanks[7] == '\U{1d}' && blanks[8] == '\U{1e}' && blanks[9] == '\U{1f}';
  }

  lemma {:induction false} LeftBlanks(s: string) returns (i: nat)
    ensures i <= |s| && StripLeft(s) == s[i..] && (forall k :: 0 <= k < i ==> Space(s[k])) && (i < |s| ==> !Space(s[i]))
  {
    if s != "" && Space(s[0]) {
      i := LeftBlanks(s[1..]);
      assert s[1..][i..] == s[i + 1..];
      assert forall k :: 0 < k <= i ==> s[k] == s[1..][k - 1];
      i := i + 1;
    } else {
      i := 0;
    }
  }

  lemma {:induction false} RightBlanks(s: string) returns (j: nat)
    ensures j <= |s| && StripRight(s) == s[..j] && (forall k :: j <= k < |s| ==> Space(s[k])) && (j > 0 ==> !Space(s[j - 1]))
  {
    if s != "" && Space(s[|s| - 1]) {
      j := RightBlanks(s[..|s| - 1]);
      assert s[..|s| - 1][..j] == s[..j];
    } else {
      j := |s|;
    }
  }

  /** Capitals: `a` to `z` become `A` to `Z`, one for one. */
  lemma InCapitals(s: string, i: nat)
    requires i < |s|
    ensures |Upper(s)| == |s|
    ensures 'a' <= s[i] <= 'z' ==> 'A' <= Upper(s)[i] <= 'Z' && Upper(s)[i] as int - 'A' as int == s[i] as int - 'a' as int
    ensures !('a' <= s[i] <= 'z') ==> Upper(s)[i] == s[i]
  {
    UpperChars(s);
  }

  // -- both shapes read the same --------------------------------------------------------------

  function UpperToken(token: Option<string>): Option<string> {
    if token.None? then None else Some(Upper(token.value))
  }

  function UpperCheck(c: Check): Check {
    Check(UpperToken(c.status), UpperToken(c.state), UpperToken(c.conclusion))
  }

  lemma {:induction false} UpperChars(s: string)
    ensures |Upper(s)| == |s| && forall i :: 0 <= i < |s| ==> Upper(s)[i] == UpperChar(s[i])
  {
    if s != "" { UpperChars(s[1..]); }
  }

  lemma {:induction false} StripLeftUpper(s: string)
    ensures StripLeft(Upper(s)) == Upper(StripLeft(s))
  {
    UpperChars(s);
    if s != "" && Space(s[0]) {
      StripLeftUpper(s[1..]);
      assert Upper(s)[1..] == Upper(s[1..]);
    }
  }

  lemma {:induction false} StripRightUpper(s: string)
    ensures StripRight(Upper(s)) == Upper(StripRight(s))
  {
    UpperChars(s);
    if s != "" && Space(s[|s| - 1]) {
      var n := |s| - 1;
      StripRightUpper(s[..n]);
      UpperChars(s[..n]);
      assert Upper(s)[..n] == Upper(s[..n]);
    }
  }

  lemma {:induction false} UpperTwice(s: string)
    ensures Upper(Upper(s)) == Upper(s)
  {
    if s != "" {
      UpperTwice(s[1..]);
      assert Upper(s)[1..] == Upper(s[1..]);
    }
  }

  /** A token in capitals, with nothing around it. */
  lemma AlreadyNormal(s: string)
    requires s != "" && forall i :: 0 <= i < |s| ==> 'A' <= s[i] <= 'Z'
    ensures Normalised(Some(s)) == Some(s)
  {
    UpperChars(s);
    assert Upper(s) == s;
  }

  lemma NormalisedUpper(token: Option<string>)
    ensures Normalised(UpperToken(token)) == Normalised(token)
  {
    if token.Some? {
      StripLeftUpper(token.value);
      StripRightUpper(StripLeft(token.value));
      UpperTwice(StripRight(StripLeft(token.value)));
    }
  }

  lemma UpperCheckReadsSame(c: Check)
    ensures Pending(UpperCheck(c)) == Pending(c) && Accepted(UpperCheck(c)) == Accepted(c)
  {
    NormalisedUpper(c.status);
    NormalisedUpper(c.state);
    NormalisedUpper(c.conclusion);
  }

  /** The verdict does not depend on which API's casing reported the checks. */
  lemma VerdictIgnoresCase(checks: seq<Check>, shouted: seq<Check>)
    requires |shouted| == |checks| && forall i :: 0 <= i < |checks| ==> shouted[i] == UpperCheck(checks[i])
    ensures EvaluateCommitChecks(shouted) == EvaluateCommitChecks(checks)
  {
    forall i | 0 <= i < |checks|
      ensures Pending(shouted[i]) == Pending(checks[i]) && Accepted(shouted[i]) == Accepted(checks[i])
    {
      UpperCheckReadsSame(checks[i]);
    }
  }
}
