/** The append-only install log that keeps itself below a size cap. Texts are
    sequences of one-byte characters. */
module InstallLog {
  import opened Wrappers

  const MAX_BYTES := 1024 * 1024
  const TAIL_BYTES := 256 * 1024

  const HEADER_BYTES := 55

  function Header(): (r: string)
    ensures |r| == HEADER_BYTES && r[HEADER_BYTES - 1] == '\n'
  {
    "[install log truncated; keeping the last 262144 bytes]\n"
  }

  /** The longest line that can never push the log over its cap. */
  const LINE_LIMIT := MAX_BYTES - HEADER_BYTES - (TAIL_BYTES - 1)

  /** Empty, or ending with a complete line. */
  predicate Terminated(s: string) { s == "" || s[|s| - 1] == '\n' }

  function FirstNewline(s: string): (r: Option<nat>)
    ensures r.Some? ==> r.value < |s| && s[r.value] == '\n' && forall i :: 0 <= i < r.value ==> s[i] != '\n'
    ensures r.None? ==> forall i :: 0 <= i < |s| ==> s[i] != '\n'
  {
    if s == "" then None
    else if s[0] == '\n' then Some(0)
    else match FirstNewline(s[1..])
         case None => None
         case Some(i) => Some(i + 1)
  }

  function Tail(s: string): string { if |s| <= TAIL_BYTES then s else s[|s| - TAIL_BYTES..] }

  /** What truncation keeps: the tail without its leading partial line. */
  function Kept(s: string): string {
    var tail := Tail(s);
    match FirstNewline(tail)
    case None => tail
    case Some(i) => tail[i + 1..]
  }

  function Appended(log: string, line: string): string {
    (if |log| + |line| > MAX_BYTES then Header() + Kept(log) else log) + line
  }

  class LogFile {
    var content: string

    constructor ()
      ensures content == ""
    {
      content := "";
    }

    method Truncate()
      modifies this
      ensures content == Header() + Kept(old(content))
    {
      var kept := content[if |content| > TAIL_BYTES then |content| - TAIL_BYTES else 0..];
      var newline := FirstNewline(kept);
      if newline.Some? { kept := kept[newline.value + 1..]; }
      content := Header() + kept;
    }

    method Append(line: string)
      modifies this
      ensures content == Appended(old(content), line)
    {
      if |content| + |line| > MAX_BYTES { Truncate(); }
      content := content + line;
    }
  }

  function Log(lines: seq<string>): string {
    if lines == [] then "" else Appended(Log(lines[..|lines| - 1]), lines[|lines| - 1])
  }

  function History(lines: seq<string>): string {
    if lines == [] then "" else History(lines[..|lines| - 1]) + lines[|lines| - 1]
  }

  /** The log is the whole history, or the header and what follows some complete
      line of the history. */
  ghost predicate EndOfHistory(log: string, history: string) {
    || log == history
    || exists k :: 0 < k <= |history| && history[k - 1] == '\n' && log == Header() + history[k..]
  }

  /** What is kept starts right behind the first newline of the last 256 KiB, wherever
      that is. */
  lemma KeptIsBehindFirstNewline(log: string, i: nat)
    requires |log| > TAIL_BYTES && |log| - TAIL_BYTES <= i < |log| && log[i] == '\n'
    requires forall j :: |log| - TAIL_BYTES <= j < i ==> log[j] != '\n'
    ensures Kept(log) == log[i + 1..]
  {
    var tail := Tail(log);
    var at := i - (|log| - TAIL_BYTES);
    assert tail[at] == log[i];
    assert forall j :: 0 <= j < at ==> tail[j] == log[j + (|log| - TAIL_BYTES)];
    assert FirstNewline(tail) == Some(at);
  }

  lemma KeptStartsAfterLine(log: string)
    requires Terminated(log) && log != ""
    ensures |Kept(log)| < |Tail(log)|
    ensures var k := |log| - |Kept(log)|; 0 < k && log[k - 1] == '\n' && Kept(log) == log[k..]
  {
    var tail := Tail(log);
    assert tail[|tail| - 1] == '\n';
  }

  lemma AppendKeepsEnd(log: string, history: string, line: string)
    requires EndOfHistory(log, history) && Terminated(log) && Terminated(line)
    requires |log| <= MAX_BYTES && |line| <= LINE_LIMIT
    ensures EndOfHistory(Appended(log, line), history + line)
    ensures |Appended(log, line)| <= MAX_BYTES && Terminated(Appended(log, line))
  {
    hide Header, Kept, FirstNewline;
    if |log| + |line| > MAX_BYTES {
      TruncatingAppend(log, history, line);
    } else {
      GrowingKeepsEnd(log, history, line);
      hide EndOfHistory;
    }
  }

  lemma GrowingKeepsEnd(log: string, history: string, line: string)
    requires EndOfHistory(log, history)
    ensures EndOfHistory(log + line, history + line)
  {
    hide Header;
    if log != history {
      var k :| 0 < k <= |history| && history[k - 1] == '\n' && log == Header() + history[k..];
      assert (history + line)[k - 1] == '\n' && (history + line)[k..] == history[k..] + line;
      assert log + line == Header() + (history + line)[k..];
    }
  }

  lemma TruncatingAppend(log: string, history: string, line: string)
    requires EndOfHistory(log, history) && Terminated(log) && Terminated(line)
    requires |log| <= MAX_BYTES && |line| <= LINE_LIMIT && |log| + |line| > MAX_BYTES
    ensures EndOfHistory(Appended(log, line), history + line)
    ensures |Appended(log, line)| <= MAX_BYTES && Terminated(Appended(log, line))
  {
    hide EndOfHistory, FirstNewline, Kept;
    KeptStartsAfterLine(log);
    var cut := |log| - |Kept(log)|;
    assert Appended(log, line) == Header() + log[cut..] + line;
    TruncationKeepsEnd(log, history, cut, line);
  }

  /** Cutting a log behind one of its lines, below the header, cuts the history
      behind that line. */
  lemma TruncationKeepsEnd(log: string, history: string, cut: nat, line: string)
    requires EndOfHistory(log, history) && HEADER_BYTES < cut <= |log| && log[cut - 1] == '\n'
    ensures EndOfHistory(Header() + log[cut..] + line, history + line)
  {
    hide Header;
    var all := history + line;
    var from := cut;
    if log != history {
      var k :| 0 < k <= |history| && history[k - 1] == '\n' && log == Header() + history[k..];
      from := cut - HEADER_BYTES + k;
      assert history[from - 1] == log[cut - 1];
      assert history[from..] == log[cut..];
    }
    assert all[from - 1] == '\n' && Header() + log[cut..] + line == Header() + all[from..];
  }

  /** After any sequence of complete lines below the limit, the log is the end of
      the history from some line boundary on, and within its cap. */
  lemma {:induction false} LogIsEndOfHistory(lines: seq<string>)
    requires forall i :: 0 <= i < |lines| ==> Terminated(lines[i]) && |lines[i]| <= LINE_LIMIT
    ensures EndOfHistory(Log(lines), History(lines))
    ensures |Log(lines)| <= MAX_BYTES && Terminated(Log(lines))
  {
    if lines != [] {
      var prefix := lines[..|lines| - 1];
      LogIsEndOfHistory(prefix);
      AppendKeepsEnd(Log(prefix), History(prefix), lines[|lines| - 1]);
    }
  }

  /** The limit is exact: a line respects the cap of every log if and only if it is
      no longer. */
  lemma LineLimitIsExact(line: string)
    ensures (forall log :: Terminated(log) && |log| <= MAX_BYTES ==> |Appended(log, line)| <= MAX_BYTES)
            <==> |line| <= LINE_LIMIT
  {
    if |line| <= LINE_LIMIT {
      forall log | Terminated(log) && |log| <= MAX_BYTES ensures |Appended(log, line)| <= MAX_BYTES {
        if |log| + |line| > MAX_BYTES { KeptStartsAfterLine(log); }
      }
    } else {
      var full: string := seq(MAX_BYTES, i => '\n');
      assert Tail(full)[0] == '\n';
      assert FirstNewline(Tail(full)) == Some(0);
      assert |Appended(full, line)| > MAX_BYTES;
    }
  }

  /** A whole session: any number of complete lines below the limit leaves the end
      of their history, from a line boundary on and within the cap. */
  method AppendAll(lines: seq<string>) returns (log: LogFile)
    requires forall i :: 0 <= i < |lines| ==> Terminated(lines[i]) && |lines[i]| <= LINE_LIMIT
    ensures EndOfHistory(log.content, History(lines)) && |log.content| <= MAX_BYTES
  {
    log := new LogFile();
    for i := 0 to |lines|
      invariant fresh(log) && log.content == Log(lines[..i])
    {
      log.Append(lines[i]);
      assert lines[..i + 1][..i] == lines[..i];
    }
    assert lines[..|lines|] == lines;
    LogIsEndOfHistory(lines);
  }
}
