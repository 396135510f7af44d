/**
 * The command dispatcher of src/bin/td/main.rs: it takes the first word of
 * an input line, runs the `continue` command when that word is a prefix of
 * "continue", and prints the stop reason the process reports.
 */
module Dispatcher {
  import opened Wrappers
  import opened Format
  import opened Controller

  // ---------------------------------------------------------------------------
  // The command word

  /** `char::is_whitespace`: the Unicode White_Space property. */
  predicate IsWhitespace(c: char) {
    ('\U{0009}' <= c <= '\U{000D}') || c == ' ' || c == '\U{0085}' || c == '\U{00A0}' ||
    c == '\U{1680}' || ('\U{2000}' <= c <= '\U{200A}') || c == '\U{2028}' || c == '\U{2029}' ||
    c == '\U{202F}' || c == '\U{205F}' || c == '\U{3000}'
  }

  predicate AllWhitespace(s: string) {
    forall i :: 0 <= i < |s| ==> IsWhitespace(s[i])
  }

  predicate NoWhitespace(s: string) {
    forall i :: 0 <= i < |s| ==> !IsWhitespace(s[i])
  }

  /** The length of the run of whitespace that starts `s`. */
  function LeadingWhitespace(s: string): (k: nat)
    ensures k <= |s| && AllWhitespace(s[..k])
    ensures k < |s| ==> !IsWhitespace(s[k])
    decreases |s|
  {
    if s == [] || !IsWhitespace(s[0]) then 0
    else
      var k := 1 + LeadingWhitespace(s[1..]);
      assert forall i :: 1 <= i < k ==> s[..k][i] == s[1..][..k - 1][i - 1];
      k
  }

  /** The length of the run of non-whitespace that starts `s`. */
  function WordLength(s: string): (n: nat)
    ensures n <= |s| && NoWhitespace(s[..n])
    ensures n < |s| ==> IsWhitespace(s[n])
    decreases |s|
  {
    if s == [] || IsWhitespace(s[0]) then 0
    else
      var n := 1 + WordLength(s[1..]);
      assert forall i :: 1 <= i < n ==> s[..n][i] == s[1..][..n - 1][i - 1];
      n
  }

  /**
   * `line.split_whitespace().next().unwrap_or_default()`: the first
   * whitespace-separated word of the line, or "" when there is none.
   */
  function CommandWord(line: string): (w: string)
    ensures NoWhitespace(w)
    ensures w == "" <==> AllWhitespace(line)
  {
    var k := LeadingWhitespace(line);
    var rest := line[k..];
    var n := WordLength(rest);
    assert AllWhitespace(line) ==> k == |line|;
    assert k < |line| ==> n > 0 && rest[0] == line[k];
    rest[..n]
  }

  /**
   * The command word is found wherever the line puts it: after any leading
   * whitespace, and whatever follows it once a whitespace character ends it.
   */
  lemma {:induction false} CommandWordOf(lead: string, word: string, rest: string)
    requires AllWhitespace(lead) && NoWhitespace(word) && word != ""
    requires rest == "" || IsWhitespace(rest[0])
    ensures CommandWord(lead + word + rest) == word
  {
    var line := lead + word + rest;
    assert forall i :: 0 <= i < |lead| ==> line[i] == lead[i];
    assert line[|lead|] == word[0];
    var k := LeadingWhitespace(line);
    assert line[k..] == word + rest;
    assert forall i :: 0 <= i < |word| ==> (word + rest)[i] == word[i];
    var n := WordLength(word + rest);
    assert forall m :: |word| < m <= |word + rest| ==> (word + rest)[..m][|word|] == rest[0];
    assert (word + rest)[..n] == word;
  }

  // ---------------------------------------------------------------------------
  // Resolving the command

  datatype Command = Continue | Unknown

  const ContinueName := "continue"

  /** `"continue".starts_with(command)`. */
  function Resolve(line: string): (c: Command)
    ensures c == Continue ==> |CommandWord(line)| <= |ContinueName|
    ensures AllWhitespace(line) ==> c == Continue
  {
    if CommandWord(line) <= ContinueName then Continue else Unknown
  }

  /** A line of nothing but whitespace has the empty command word, which resolves to `continue`. */
  lemma BlankLineContinues(line: string)
    requires AllWhitespace(line)
    ensures Resolve(line) == Continue
  {
  }

  /**
   * A line resolves to `continue` exactly when its command word is one of
   * the first 0 to 8 letters of "continue"; words after the first are ignored.
   */
  lemma {:induction false} ResolveContinue(lead: string, word: string, rest: string)
    requires AllWhitespace(lead) && NoWhitespace(word) && word != ""
    requires rest == "" || IsWhitespace(rest[0])
    ensures Resolve(lead + word + rest) == Continue <==>
      exists k :: 1 <= k <= |ContinueName| && word == ContinueName[..k]
  {
    CommandWordOf(lead, word, rest);
    if word <= ContinueName {
      assert word == ContinueName[..|word|];
    }
  }

  /** Every abbreviation of "continue", from "c" to the full word, runs the command. */
  lemma AbbreviationsContinue(k: nat)
    requires 1 <= k <= |ContinueName|
    ensures Resolve(ContinueName[..k]) == Continue
  {
    var word := ContinueName[..k];
    assert NoWhitespace(word);
    CommandWordOf("", word, "");
    assert "" + word + "" == word;
  }

  /** A word longer than "continue", such as "continues", is an unknown command. */
  lemma LongerWordsUnknown(word: string)
    requires NoWhitespace(word) && |word| > |ContinueName|
    ensures Resolve(word) == Unknown
  {
    CommandWordOf("", word, "");
    assert "" + word + "" == word;
  }

  // ---------------------------------------------------------------------------
  // Reporting a stop

  /** A line the dispatcher writes: to standard output or to standard error. */
  datatype Output = Stdout(text: string) | Stderr(text: string)

  const ReportPrefix := "Process "

  /**
   * `print_stop_reason`: the line printed for a stop of process `pid`, or
   * `None` when the reason is the transient `Running`.
   */
  function StopReport(pid: int, r: StopReason): (line: Option<string>)
    requires Renderable(r)
    ensures line.None? <==> r.reason == Running
  {
    if r.reason == Running then None
    else Some(ReportPrefix + IntToString(pid) + " " + Describe(r))
  }

  /** Splits `s` at its first space: the text before it and the text after it. */
  function SplitAtSpace(s: string): (string, string)
    decreases |s|
  {
    if s == [] then ("", "")
    else if s[0] == ' ' then ("", s[1..])
    else
      var (head, tail) := SplitAtSpace(s[1..]);
      ([s[0]] + head, tail)
  }

  lemma {:induction false} SplitAtFirstSpace(head: string, tail: string)
    requires ' ' !in head
    ensures SplitAtSpace(head + " " + tail) == (head, tail)
    decreases |head|
  {
    if head == [] {
      assert head + " " + tail == " " + tail;
    } else {
      assert (head + " " + tail)[1..] == head[1..] + " " + tail;
      SplitAtFirstSpace(head[1..], tail);
      assert [head[0]] + head[1..] == head;
    }
  }

  /** Reads a report line back into the pid and the stop reason. */
  function ParseStopReport(line: string): Option<(int, StopReason)> {
    if ReportPrefix <= line then
      var (pidText, description) := SplitAtSpace(line[|ReportPrefix|..]);
      match (ParseInt(pidText), ParseDescription(description))
      case (Some(pid), Some(r)) => Some((pid, r))
      case _ => None
    else None
  }

  /** A printed report names the process and the stop unambiguously. */
  lemma StopReportRoundTrip(pid: int, r: StopReason)
    requires Consistent(r) && r.reason != Running
    ensures StopReport(pid, r).Some?
    ensures ParseStopReport(StopReport(pid, r).value) == Some((pid, r))
  {
    var tail := IntToString(pid) + " " + Describe(r);
    PrefixThenRest(ReportPrefix, tail);
    assert ReportPrefix + IntToString(pid) + " " + Describe(r) == ReportPrefix + tail;
    SplitAtFirstSpace(IntToString(pid), Describe(r));
    IntRoundTrip(pid);
    DescribeRoundTrip(r);
  }

  // ---------------------------------------------------------------------------
  // Handling a line

  /**
   * `handle_command`. `continued` is whether the OS agreed to continue the
   * process and `waited` what the following wait reported (`None` if it
   * failed). The result is the lines written, or the error passed back to
   * the read loop.
   */
  method HandleCommand(p: Process, os: Os, line: string, continued: bool, waited: Option<WaitStatus>)
    returns (r: Result<seq<Output>, ProcessError>)
    requires waited.Some? ==> Handled(waited.value)
    modifies p, os
    ensures p.pid == old(p.pid) && p.terminateOnEnd == old(p.terminateOnEnd)
    ensures Resolve(line) == Unknown ==>
      r == Ok([Stderr("Unknown command")]) && os.log == old(os.log) && p.state == old(p.state)
    ensures Resolve(line) == Continue && !continued ==>
      r == Err(ProcessError.Resume) && os.log == old(os.log) + [PtraceCont(p.pid)] && p.state == old(p.state)
    ensures Resolve(line) == Continue && continued && waited.None? ==>
      r == Err(ProcessError.Wait) && os.log == old(os.log) + [PtraceCont(p.pid), WaitPid(p.pid)] &&
      p.state == Running
    ensures Resolve(line) == Continue && continued && waited.Some? ==>
      os.log == old(os.log) + [PtraceCont(p.pid), WaitPid(p.pid)] &&
      p.state == Decode(waited.value).reason && p.state != Running &&
      r == Ok([Stdout(StopReport(p.pid, Decode(waited.value)).value)])
  {
    if Resolve(line) == Unknown {
      return Ok([Stderr("Unknown command")]);
    }
    var resumed := p.Resume(os, continued);
    if resumed.Err? {
      return Err(resumed.error);
    }
    var reason := p.WaitOnSignal(os, waited);
    if reason.Err? {
      return Err(reason.error);
    }
    var printed := StopReport(p.pid, reason.value);
    var out: seq<Output> := if printed.Some? then [Stdout(printed.value)] else [];
    return Ok(out);
  }
}
