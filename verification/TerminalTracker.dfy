// The command-audit tracker of the pod terminal (and, with another write-error rule and command list, of the
// SSH terminal): it watches key strokes and raw terminal output, and records the commands it recovers.

module TerminalTracker {
  import opened GoStrings
  import opened Utf8
  import opened CommandExtraction

  const CTRL_C: string := "\U{03}"

  /** The tracking fields of a session, and the commands handed to RecordCommandAsync so far. */
  datatype Tracker = Tracker(line: string, last: string, pending: bool, recorded: seq<string>)

  // ---------------------------------------------------------------- one step

  /** The extraction of the two handlers; they differ in the list of common commands only. The lemmas below
      hold for any extraction function. */
  function Extractor(commonCommands: seq<string>): string -> string {
    line => ExtractCommand(line, commonCommands)
  }

  /** The extracted command as a list: empty when nothing was recognised. */
  function Recovered(line: string, extract: string -> string): seq<string> {
    var cmd := extract(line);
    if cmd != "" then [cmd] else []
  }

  function AfterNewline(t: Tracker, extract: string -> string): Tracker {
    if t.pending && t.line != "" then
      Tracker("", t.line, false, t.recorded + Recovered(t.line, extract))
    else
      t.(line := "", last := t.line)
  }

  function AfterRune(t: Tracker, code: int, extract: string -> string): Tracker {
    if code == 10 then AfterNewline(t, extract)
    else if 32 <= code < 127 then t.(line := t.line + [code as char])
    else t
  }

  function AfterRunes(t: Tracker, codes: seq<int>, extract: string -> string): Tracker
    decreases |codes|
  {
    if codes == [] then t else AfterRunes(AfterRune(t, codes[0], extract), codes[1..], extract)
  }

  predicate IsEnter(input: string) {
    '\r' in input || '\n' in input
  }

  function AfterInput(t: Tracker, input: string): Tracker {
    if IsEnter(input) then t.(pending := true)
    else if input == CTRL_C then t.(line := "")
    else t
  }

  // ---------------------------------------------------------------- the session object

  class TerminalSession {
    const audited: bool               // auditService != nil && AuditSessionID > 0
    const abortsOnWriteError: bool    // the pod terminal gives up on a failed write, the SSH terminal goes on
    const commonCommands: seq<string>
    var currentLine: string
    var lastCompleteLine: string
    var pendingEnter: bool
    var recorded: seq<string>

    function State(): Tracker
      reads this
    {
      Tracker(currentLine, lastCompleteLine, pendingEnter, recorded)
    }

    constructor (audited: bool, abortsOnWriteError: bool, commonCommands: seq<string>)
      ensures State() == Tracker("", "", false, [])
      ensures this.audited == audited && this.commonCommands == commonCommands
      ensures this.abortsOnWriteError == abortsOnWriteError
    {
      this.audited, this.abortsOnWriteError, this.commonCommands := audited, abortsOnWriteError, commonCommands;
      currentLine, lastCompleteLine, pendingEnter, recorded := "", "", false, [];
    }

    method HandleInput(input: string, writeFailed: bool)
      modifies this
      ensures State() == if audited && !(writeFailed && abortsOnWriteError)
                         then AfterInput(old(State()), input) else old(State())
    {
      if writeFailed && abortsOnWriteError {
        return;
      }
      if audited {
        if '\r' in input || '\n' in input {
          pendingEnter := true;
        } else if input == CTRL_C {
          currentLine := "";
        }
      }
    }

    method TrackOutputForCommand(output: seq<Byte>)
      modifies this
      ensures State() == AfterRunes(old(State()), Range(output), Extractor(commonCommands))
    {
      var i := 0;
      ghost var goal, extract := AfterRunes(State(), Range(output), Extractor(commonCommands)), Extractor(commonCommands);
      assert output[0..] == output;
      while i < |output|
        invariant extract == Extractor(commonCommands)
        invariant Tracks(goal, State(), output, i, extract)
        decreases |output| - i
      {
        var d := DecodeRune(output[i..]);
        NextRune(goal, State(), output, i, extract);
        i := i + d.width;
        TrackRune(d.code);
      }
    }

    /** The switch in the loop. */
    method TrackRune(c: int)
      modifies this
      ensures State() == AfterRune(old(State()), c, Extractor(commonCommands))
    {
      if c == 10 {
        var currentContent := currentLine;
        currentLine := "";
        if pendingEnter && currentContent != "" {
          var cmd := ExtractCommandFromLine(currentContent, commonCommands);
          if cmd != "" {
            recorded := recorded + [cmd];
          }
          pendingEnter := false;
        }
        lastCompleteLine := currentContent;
      } else if c == 13 || c == 27 || c == 7 {
        // carriage return, ESC and BEL are dropped
      } else if 32 <= c < 127 {
        currentLine := currentLine + [c as char];
      }
    }

    /** The reading loop. The reader may deliver the stream in any chunks: the tracker ends up as if it had
        seen the whole stream at once. */
    method ReadOutput(chunks: seq<seq<Byte>>)
      modifies this
      ensures State() == if audited then AfterRunes(old(State()), Range(Flatten(chunks)), Extractor(commonCommands))
                         else old(State())
    {
      for k := 0 to |chunks|
        invariant State() == if audited then AfterRunes(old(State()), Range(Flatten(chunks[..k])), Extractor(commonCommands))
                             else old(State())
      {
        FlattenSnoc(chunks[..k], chunks[k]);
        assert chunks[..k + 1] == chunks[..k] + [chunks[k]];
        TrackingIgnoresChunks(old(State()), Flatten(chunks[..k]), chunks[k], Extractor(commonCommands));
        if |chunks[k]| > 0 {
          if audited {
            TrackOutputForCommand(chunks[k]);
          }
        }
      }
      assert chunks[..|chunks|] == chunks;
    }
  }

  /** Tracking the output from byte i on leads to `goal`. */
  predicate Tracks(goal: Tracker, t: Tracker, output: seq<Byte>, i: nat, extract: string -> string) {
    i <= |output| && AfterRunes(t, Range(output[i..]), extract) == goal
  }

  lemma NextRune(goal: Tracker, t: Tracker, output: seq<Byte>, i: nat, extract: string -> string)
    requires i < |output| && Tracks(goal, t, output, i, extract)
    ensures var d := DecodeRune(output[i..]);
            Tracks(goal, AfterRune(t, d.code, extract), output, i + d.width, extract)
  {
    var d := DecodeRune(output[i..]);
    assert output[i..][d.width..] == output[i + d.width..];
    assert ([d.code] + Range(output[i + d.width..]))[1..] == Range(output[i + d.width..]);
  }

  function Flatten(chunks: seq<seq<Byte>>): seq<Byte> {
    if chunks == [] then [] else chunks[0] + Flatten(chunks[1..])
  }

  lemma {:induction false} FlattenSnoc(chunks: seq<seq<Byte>>, last: seq<Byte>)
    ensures Flatten(chunks + [last]) == Flatten(chunks) + last
  {
    if chunks == [] {
      assert [last] + [] == [last];
    } else {
      assert (chunks + [last])[1..] == chunks[1..] + [last];
      FlattenSnoc(chunks[1..], last);
    }
  }

  // ---------------------------------------------------------------- chunk invariance

  lemma {:induction false} AfterRunesConcat(t: Tracker, a: seq<int>, b: seq<int>, extract: string -> string)
    ensures AfterRunes(t, a + b, extract) == AfterRunes(AfterRunes(t, a, extract), b, extract)
    decreases |a|
  {
    if a == [] {
      assert a + b == b;
    } else {
      assert (a + b)[1..] == a[1..] + b;
      AfterRunesConcat(AfterRune(t, a[0], extract), a[1..], b, extract);
    }
  }

  lemma {:induction false} OnlyAsciiMatters(t: Tracker, codes: seq<int>, extract: string -> string)
    ensures AfterRunes(t, codes, extract) == AfterRunes(t, AsciiOnly(codes), extract)
    decreases |codes|
  {
    if codes != [] {
      OnlyAsciiMatters(AfterRune(t, codes[0], extract), codes[1..], extract);
      if 0 <= codes[0] < 0x80 {
        assert AsciiOnly(codes)[1..] == AsciiOnly(codes[1..]);
      }
    }
  }

  /** Output may be cut anywhere, also inside a multi-byte sequence. */
  lemma TrackingIgnoresChunks(t: Tracker, a: seq<Byte>, b: seq<Byte>, extract: string -> string)
    ensures AfterRunes(t, Range(a + b), extract)
         == AfterRunes(AfterRunes(t, Range(a), extract), Range(b), extract)
  {
    AfterRunesConcat(t, Range(a), Range(b), extract);
    OnlyAsciiMatters(t, Range(a + b), extract);
    OnlyAsciiMatters(t, Range(a) + Range(b), extract);
    AsciiOfSplit(a, b);
  }

  // ---------------------------------------------------------------- what tracking means: splitting into lines

  /** The visible text of a decoded stream: printable ASCII and newlines. */
  function Visible(codes: seq<int>): string {
    if codes == [] then ""
    else if codes[0] == 10 || 32 <= codes[0] < 127 then [codes[0] as char] + Visible(codes[1..])
    else Visible(codes[1..])
  }

  /** The newline-ended lines of a text, and the unfinished rest. */
  function CompleteLines(s: string): seq<string>
    decreases |s|
  {
    if '\n' !in s then [] else var k := IndexOf(s, '\n'); [s[..k]] + CompleteLines(s[k + 1..])
  }

  function Unfinished(s: string): string
    decreases |s|
  {
    if '\n' !in s then s else Unfinished(s[IndexOf(s, '\n') + 1..])
  }

  predicate AllEmpty(lines: seq<string>) {
    forall i | 0 <= i < |lines| :: lines[i] == ""
  }

  /** The command in the first non-empty line, if any. */
  function FirstCommand(lines: seq<string>, extract: string -> string): seq<string> {
    if lines == [] then []
    else if lines[0] == "" then FirstCommand(lines[1..], extract)
    else Recovered(lines[0], extract)
  }

  /** The declarative reading of the tracker on a text of visible characters. */
  function SplitState(t: Tracker, text: string, extract: string -> string): Tracker {
    var lines := CompleteLines(text);
    Tracker(
      Unfinished(text),
      if lines == [] then t.last else lines[|lines| - 1],
      t.pending && AllEmpty(lines),
      t.recorded + if t.pending then FirstCommand(lines, extract) else [])
  }

  lemma {:induction false} FirstNewline(head: string, rest: string)
    requires '\n' !in head
    ensures IndexOf(head + "\n" + rest, '\n') == |head|
  {
    if head != "" {
      assert (head + "\n" + rest)[1..] == head[1..] + "\n" + rest;
      FirstNewline(head[1..], rest);
    }
  }

  lemma SplitAtNewline(head: string, rest: string)
    requires '\n' !in head
    ensures CompleteLines(head + "\n" + rest) == [head] + CompleteLines(rest)
    ensures Unfinished(head + "\n" + rest) == Unfinished(rest)
  {
    var s := head + "\n" + rest;
    FirstNewline(head, rest);
    assert s[..|head|] == head && s[|head| + 1..] == rest;
    assert s[|head|] == '\n';
  }

  lemma NewlineStep(t: Tracker, rest: string, extract: string -> string)
    requires '\n' !in t.line
    ensures SplitState(AfterNewline(t, extract), rest, extract) == SplitState(t, t.line + "\n" + rest, extract)
  {
    SplitAtNewline(t.line, rest);
    var lines := CompleteLines(rest);
    assert ([t.line] + lines)[1..] == lines;
    assert AllEmpty([t.line] + lines) <==> t.line == "" && AllEmpty(lines) by {
      assert ([t.line] + lines)[0] == t.line;
      assert forall i | 0 <= i < |lines| :: ([t.line] + lines)[i + 1] == lines[i];
    }
  }

  /** The tracker is a line splitter: after any output, the fields are the unfinished line, the last complete
      line, whether an Enter still waits for its line, and the command of the first non-empty complete line
      after an Enter. */
  lemma {:induction false} TrackingIsLineSplitting(t: Tracker, codes: seq<int>, extract: string -> string)
    requires '\n' !in t.line
    ensures AfterRunes(t, codes, extract) == SplitState(t, t.line + Visible(codes), extract)
    decreases |codes|
  {
    if codes == [] {
      assert t.line + Visible(codes) == t.line;
    } else {
      var rest := Visible(codes[1..]);
      TrackingIsLineSplitting(AfterRune(t, codes[0], extract), codes[1..], extract);
      RuneStep(t, codes[0], rest, extract);
      VisibleHead(t.line, codes);
    }
  }

  lemma VisibleOne(code: int)
    ensures Visible([code]) == if code == 10 || 32 <= code < 127 then [code as char] else ""
  {
    assert [code][1..] == [];
  }

  lemma VisibleHead(line: string, codes: seq<int>)
    requires codes != []
    ensures line + Visible(codes) == line + Visible([codes[0]]) + Visible(codes[1..])
  {
    VisibleOne(codes[0]);
    var own, rest := if codes[0] == 10 || 32 <= codes[0] < 127 then [codes[0] as char] else "", Visible(codes[1..]);
    assert "" + rest == rest;
    assert Visible(codes) == own + rest;
    Regroup(line, own, rest);
  }

  lemma Regroup(a: string, b: string, c: string)
    ensures a + (b + c) == a + b + c
  {
  }

  lemma RuneStep(t: Tracker, code: int, rest: string, extract: string -> string)
    requires '\n' !in t.line
    ensures var next := AfterRune(t, code, extract);
            SplitState(next, next.line + rest, extract) == SplitState(t, t.line + Visible([code]) + rest, extract)
  {
    var next := AfterRune(t, code, extract);
    if code == 10 {
      NewlineStep(t, rest, extract);
      assert Visible([code]) == "\n" && next.line + rest == rest;
    } else if 32 <= code < 127 {
      assert Visible([code]) == [code as char];
      assert next.line + rest == t.line + [code as char] + rest;
    } else {
      assert Visible([code]) == "" && t.line + "" == t.line;
    }
  }

  // ---------------------------------------------------------------- whole sessions

  /** What a session sees, in the order in which the session lock is taken. */
  datatype Event = Keys(input: string) | Output(chunk: seq<Byte>)

  function AfterEvent(t: Tracker, e: Event, extract: string -> string): Tracker {
    match e
    case Keys(input) => AfterInput(t, input)
    case Output(chunk) => AfterRunes(t, Range(chunk), extract)
  }

  function AfterEvents(t: Tracker, events: seq<Event>, extract: string -> string): Tracker
    decreases |events|
  {
    if events == [] then t else AfterEvents(AfterEvent(t, events[0], extract), events[1..], extract)
  }

  function Enters(events: seq<Event>): nat {
    if events == [] then 0
    else (if events[0].Keys? && IsEnter(events[0].input) then 1 else 0) + Enters(events[1..])
  }

  /** The complete lines that a session printed, in order. */
  function LinesOf(t: Tracker, events: seq<Event>, extract: string -> string): seq<string>
    decreases |events|
  {
    if events == [] then []
    else
      (match events[0]
       case Keys(_) => []
       case Output(chunk) => CompleteLines(t.line + Visible(Range(chunk))))
      + LinesOf(AfterEvent(t, events[0], extract), events[1..], extract)
  }

  lemma {:induction false} AfterEventsConcat(t: Tracker, a: seq<Event>, b: seq<Event>, extract: string -> string)
    ensures AfterEvents(t, a + b, extract) == AfterEvents(AfterEvents(t, a, extract), b, extract)
    decreases |a|
  {
    if a == [] {
      assert a + b == b;
    } else {
      assert (a + b)[1..] == a[1..] + b;
      AfterEventsConcat(AfterEvent(t, a[0], extract), a[1..], b, extract);
    }
  }

  /** In a whole session, with keys typed in between, cutting one output chunk in two changes nothing. */
  lemma SessionIgnoresChunks(t: Tracker, before: seq<Event>, a: seq<Byte>, b: seq<Byte>, after: seq<Event>,
                             extract: string -> string)
    ensures AfterEvents(t, before + [Output(a + b)] + after, extract)
         == AfterEvents(t, before + [Output(a), Output(b)] + after, extract)
  {
    var m := AfterEvents(t, before, extract);
    AfterEventsConcat(t, before + [Output(a + b)], after, extract);
    AfterEventsConcat(t, before, [Output(a + b)], extract);
    AfterEventsConcat(t, before + [Output(a), Output(b)], after, extract);
    AfterEventsConcat(t, before, [Output(a), Output(b)], extract);
    TrackingIgnoresChunks(m, a, b, extract);
    assert [Output(a), Output(b)][1..] == [Output(b)];
    assert AfterEvents(m, [Output(a), Output(b)], extract)
        == AfterEvents(AfterEvent(m, Output(a), extract), [Output(b)], extract);
  }

  lemma {:induction false} RunesKeepPrintable(t: Tracker, codes: seq<int>, extract: string -> string)
    requires Printable(t.line)
    ensures var u := AfterRunes(t, codes, extract); Printable(u.line) && (Printable(t.last) ==> Printable(u.last))
    decreases |codes|
  {
    if codes != [] {
      RunesKeepPrintable(AfterRune(t, codes[0], extract), codes[1..], extract);
    }
  }

  /** In every session the buffers hold printable ASCII only, so the escape stripping before extraction never
      finds anything to strip. */
  lemma {:induction false} SessionKeepsPrintable(t: Tracker, events: seq<Event>, extract: string -> string)
    requires Printable(t.line) && Printable(t.last)
    ensures var u := AfterEvents(t, events, extract);
            && Printable(u.line) && Printable(u.last)
            && StripAnsi(u.line, false) == u.line && StripAnsi(u.last, false) == u.last
    decreases |events|
  {
    if events == [] {
      StripAnsiKeeps(t.line);
      StripAnsiKeeps(t.last);
    } else {
      if events[0].Output? {
        RunesKeepPrintable(t, Range(events[0].chunk), extract);
      }
      SessionKeepsPrintable(AfterEvent(t, events[0], extract), events[1..], extract);
    }
  }

  predicate RecoveredFrom(command: string, line: string, extract: string -> string) {
    line != "" && command != "" && command == extract(line)
  }

  /** Indices that pick a subsequence of `lines` whose extracted commands are exactly `commands`. */
  ghost predicate Picks(idx: seq<nat>, lines: seq<string>, commands: seq<string>, extract: string -> string) {
    && |idx| == |commands|
    && (forall i, j | 0 <= i < j < |idx| :: idx[i] < idx[j])
    && (forall i | 0 <= i < |idx| :: idx[i] < |lines| && RecoveredFrom(commands[i], lines[idx[i]], extract))
  }

  lemma {:induction false} PickFirst(lines: seq<string>, extract: string -> string) returns (idx: seq<nat>)
    ensures Picks(idx, lines, FirstCommand(lines, extract), extract)
    ensures |idx| <= 1
    ensures AllEmpty(lines) ==> idx == []
  {
    if lines == [] {
      idx := [];
    } else if lines[0] == "" {
      var rest := PickFirst(lines[1..], extract);
      idx := ShiftPicks([""], rest, lines[1..], FirstCommand(lines[1..], extract), extract);
      assert [""] + lines[1..] == lines;
    } else {
      idx := if extract(lines[0]) != "" then [0] else [];
    }
  }

  lemma ShiftPicks(skipped: seq<string>, idx: seq<nat>, lines: seq<string>, commands: seq<string>, extract: string -> string)
    returns (shifted: seq<nat>)
    requires Picks(idx, lines, commands, extract)
    ensures Picks(shifted, skipped + lines, commands, extract)
    ensures forall i | 0 <= i < |shifted| :: shifted[i] >= |skipped|
  {
    shifted := seq(|idx|, i requires 0 <= i < |idx| => idx[i] + |skipped|);
    forall i | 0 <= i < |shifted|
      ensures shifted[i] < |skipped + lines| && RecoveredFrom(commands[i], (skipped + lines)[shifted[i]], extract)
    {
      assert (skipped + lines)[shifted[i]] == lines[idx[i]];
    }
  }

  lemma AppendPicks(idx1: seq<nat>, lines1: seq<string>, commands1: seq<string>,
                    idx2: seq<nat>, lines: seq<string>, commands2: seq<string>, extract: string -> string)
    requires Picks(idx1, lines1, commands1, extract) && lines1 <= lines && Picks(idx2, lines, commands2, extract)
    requires forall i | 0 <= i < |idx2| :: idx2[i] >= |lines1|
    ensures Picks(idx1 + idx2, lines, commands1 + commands2, extract)
  {
    var idx, commands := idx1 + idx2, commands1 + commands2;
    forall i | 0 <= i < |idx|
      ensures idx[i] < |lines| && RecoveredFrom(commands[i], lines[idx[i]], extract)
    {
      if i < |idx1| {
        assert lines[idx1[i]] == lines1[idx1[i]];
      } else {
        assert idx[i] == idx2[i - |idx1|] && commands[i] == commands2[i - |idx1|];
      }
    }
  }

  /** `added` are the commands recorded over the session, each extracted from its own complete, non-empty
      line, in the order of the lines; together with an Enter still pending they are no more than the Enters. */
  ghost predicate Explained(t: Tracker, events: seq<Event>, extract: string -> string, added: seq<string>, idx: seq<nat>) {
    var u := AfterEvents(t, events, extract);
    && u.recorded == t.recorded + added
    && Picks(idx, LinesOf(t, events, extract), added, extract)
    && |added| + (if u.pending then 1 else 0) <= Enters(events) + (if t.pending then 1 else 0)
  }

  /** In every session each recorded command comes from its own printed line, and commands never outnumber
      the Enter inputs. */
  lemma {:induction false} RecordedCommandsComeFromLines(t: Tracker, events: seq<Event>, extract: string -> string)
    returns (added: seq<string>, idx: seq<nat>)
    requires Printable(t.line)
    ensures Explained(t, events, extract, added, idx)
    decreases |events|
  {
    added, idx := [], [];
    if events != [] {
      var u := AfterEvent(t, events[0], extract);
      if events[0].Keys? {
        added, idx := RecordedCommandsComeFromLines(u, events[1..], extract);
        assert LinesOf(t, events, extract) == LinesOf(u, events[1..], extract);
      } else {
        RunesKeepPrintable(t, Range(events[0].chunk), extract);
        var rest, idx2 := RecordedCommandsComeFromLines(u, events[1..], extract);
        added, idx := ExplainOutput(t, events, extract, rest, idx2);
      }
    }
  }

  lemma ExplainOutput(t: Tracker, events: seq<Event>, extract: string -> string, rest: seq<string>, idx2: seq<nat>)
    returns (added: seq<string>, idx: seq<nat>)
    requires Printable(t.line) && events != [] && events[0].Output?
    requires Explained(AfterEvent(t, events[0], extract), events[1..], extract, rest, idx2)
    ensures Explained(t, events, extract, added, idx)
  {
    var u := AfterEvent(t, events[0], extract);
    var lines := CompleteLines(t.line + Visible(Range(events[0].chunk)));
    var restLines := LinesOf(u, events[1..], extract);
    var first, idx1 := RecordedByChunk(t, events[0].chunk, extract);
    var shifted := ShiftPicks(lines, idx2, restLines, rest, extract);
    AppendPicks(idx1, lines, first, shifted, lines + restLines, rest, extract);
    added, idx := first + rest, idx1 + shifted;
    assert (t.recorded + first) + rest == t.recorded + added;
  }

  lemma RecordedByChunk(t: Tracker, chunk: seq<Byte>, extract: string -> string) returns (added: seq<string>, idx: seq<nat>)
    requires Printable(t.line)
    ensures var u := AfterRunes(t, Range(chunk), extract);
            && Printable(u.line)
            && u.recorded == t.recorded + added
            && |added| + (if u.pending then 1 else 0) <= if t.pending then 1 else 0
    ensures Picks(idx, CompleteLines(t.line + Visible(Range(chunk))), added, extract)
  {
    var codes := Range(chunk);
    TrackingIsLineSplitting(t, codes, extract);
    RunesKeepPrintable(t, codes, extract);
    added, idx := [], [];
    if t.pending {
      var lines := CompleteLines(t.line + Visible(codes));
      added := FirstCommand(lines, extract);
      idx := PickFirst(lines, extract);
    }
  }

  // ---------------------------------------------------------------- escape sequences in the output

  lemma {:induction false} WithoutNewline(t: Tracker, codes: seq<int>, extract: string -> string)
    requires 10 !in codes
    ensures AfterRunes(t, codes, extract) == t.(line := t.line + Visible(codes))
    decreases |codes|
  {
    if codes == [] {
      assert t.line + "" == t.line;
    } else {
      WithoutNewline(AfterRune(t, codes[0], extract), codes[1..], extract);
      VisibleHead(t.line, codes);
      VisibleOne(codes[0]);
      assert t.line + "" == t.line;
    }
  }

  /** Whatever the continuation, inserting a piece without a newline into the output leaves the tracker as it would have
      been if and only if the piece has no visible part. */
  lemma HarmlessMeansInvisible(t: Tracker, piece: seq<int>, extract: string -> string)
    requires 10 !in piece
    ensures (forall rest :: AfterRunes(t, piece + rest, extract) == AfterRunes(t, rest, extract)) <==> Visible(piece) == ""
  {
    WithoutNewline(t, piece, extract);
    if Visible(piece) == "" {
      assert t.line + "" == t.line;
      forall rest ensures AfterRunes(t, piece + rest, extract) == AfterRunes(t, rest, extract) {
        AfterRunesConcat(t, piece, rest, extract);
      }
    } else {
      assert piece + [] == piece;
      assert AfterRunes(t, [], extract) == t;
      assert |t.line + Visible(piece)| > |t.line|;
      assert AfterRunes(t, piece + [], extract) != AfterRunes(t, [], extract);
    }
  }

  /** An escape sequence: ESC, then printable characters, as in the control sequences for colours. */
  predicate IsEscapeSequence(codes: seq<int>) {
    |codes| >= 2 && codes[0] == 27 && forall i | 1 <= i < |codes| :: 32 <= codes[i] < 127
  }

  function Text(codes: seq<int>): string
    requires forall i | 0 <= i < |codes| :: 32 <= codes[i] < 127
  {
    seq(|codes|, i requires 0 <= i < |codes| => codes[i] as char)
  }

  lemma {:induction false} VisibleText(codes: seq<int>)
    requires forall i | 0 <= i < |codes| :: 32 <= codes[i] < 127
    ensures Visible(codes) == Text(codes)
  {
    if codes != [] {
      VisibleText(codes[1..]);
      assert Text(codes) == [codes[0] as char] + Text(codes[1..]);
    }
  }

  /** So no escape sequence is harmless: dropping its ESC leaves all the rest of it in the line. */
  lemma EscapeSequenceIsKeptAsText(t: Tracker, escape: seq<int>, extract: string -> string)
    requires IsEscapeSequence(escape)
    ensures AfterRunes(t, escape, extract) == t.(line := t.line + Text(escape[1..]))
    ensures !forall rest :: AfterRunes(t, escape + rest, extract) == AfterRunes(t, rest, extract)
  {
    WithoutNewline(t, escape, extract);
    VisibleText(escape[1..]);
    assert Visible(escape) == Visible(escape[1..]);
    HarmlessMeansInvisible(t, escape, extract);
  }

  // ---------------------------------------------------------------- from a prompt and a command to the record

  /** End to end: an Enter waits, and the output completes the line to a prompt and a command. Then one command is
      recorded, and it is the one on the line if and only if extraction undoes this prompt. */
  lemma EnterRecordsTheCommand(t: Tracker, codes: seq<int>, prompt: string, cmd: string, k: nat, commonCommands: seq<string>)
    requires t.pending && Printable(t.line) && t.line + Visible(codes) == prompt + cmd + "\n"
    requires EndsInMarker(prompt, k) && Printable(prompt + cmd) && cmd != "" && Trimmed(cmd)
    ensures var u := AfterRunes(t, codes, Extractor(commonCommands));
            && u.recorded == t.recorded + [ExtractCommand(prompt + cmd, commonCommands)]
            && (u.recorded == t.recorded + [cmd] <==> ReachesPrompt(prompt, cmd, k))
            && !u.pending && u.line == "" && u.last == prompt + cmd
  {
    var extract := Extractor(commonCommands);
    ExtractUndoesPrompt(prompt, cmd, k, commonCommands);
    TrackingIsLineSplitting(t, codes, extract);
    assert prompt + cmd + "\n" == prompt + cmd + "\n" + "";
    OneLine(t, prompt + cmd, extract);
    assert extract(prompt + cmd) == ExtractCommand(prompt + cmd, commonCommands);
    assert (t.recorded + [ExtractCommand(prompt + cmd, commonCommands)])[|t.recorded|] == ExtractCommand(prompt + cmd, commonCommands);
    assert (t.recorded + [cmd])[|t.recorded|] == cmd;
  }

  lemma OneLine(t: Tracker, line: string, extract: string -> string)
    requires t.pending && line != "" && '\n' !in line && extract(line) != ""
    ensures SplitState(t, line + "\n", extract) == Tracker("", line, false, t.recorded + [extract(line)])
  {
    SplitAtNewline(line, "");
    assert line + "\n" + "" == line + "\n";
    assert CompleteLines("") == [];
    assert [line] + [] == [line];
    assert FirstCommand([line], extract) == [extract(line)];
  }

  /** A colour reset between prompt and command: what is recorded starts with the text of the escape sequence. */
  lemma ColourResetIsRecorded(t: Tracker, codes: seq<int>, prompt: string, reset: string, cmd: string, k: nat, commonCommands: seq<string>)
    requires t.pending && Printable(t.line) && t.line + Visible(codes) == prompt + (reset + cmd) + "\n"
    requires EndsInMarker(prompt, k) && Printable(prompt + (reset + cmd)) && reset != "" && cmd != "" && Trimmed(reset + cmd)
    requires ReachesPrompt(prompt, reset + cmd, k)
    ensures AfterRunes(t, codes, Extractor(commonCommands)).recorded == t.recorded + [reset + cmd]
    ensures reset + cmd != cmd
  {
    EnterRecordsTheCommand(t, codes, prompt, reset + cmd, k, commonCommands);
  }

  // ---------------------------------------------------------------- what keys do

  lemma TwoEvents(t: Tracker, input: string, chunk: seq<Byte>, extract: string -> string)
    ensures AfterEvents(t, [Keys(input), Output(chunk)], extract) == AfterRunes(AfterInput(t, input), Range(chunk), extract)
  {
    var events := [Keys(input), Output(chunk)];
    assert events[1..] == [Output(chunk)] && [Output(chunk)][1..] == [];
    assert AfterEvents(AfterInput(t, input), [Output(chunk)], extract)
        == AfterEvents(AfterRunes(AfterInput(t, input), Range(chunk), extract), [], extract);
  }

  /** From the key to the record, in any session state: once the user has pressed Enter, in whatever else was typed or pasted
      with it, output that completes the line to a prompt and a command records one command, and it is the one on the line
      if and only if extraction undoes this prompt. */
  lemma TypedCommandIsRecorded(t: Tracker, input: string, chunk: seq<Byte>, prompt: string, cmd: string, k: nat, commonCommands: seq<string>)
    requires '\r' in input || '\n' in input
    requires Printable(t.line) && t.line + Visible(Range(chunk)) == prompt + cmd + "\n"
    requires EndsInMarker(prompt, k) && Printable(prompt + cmd) && cmd != "" && Trimmed(cmd)
    ensures var u := AfterEvents(t, [Keys(input), Output(chunk)], Extractor(commonCommands));
            && u.recorded == t.recorded + [ExtractCommand(prompt + cmd, commonCommands)]
            && (u.recorded == t.recorded + [cmd] <==> ReachesPrompt(prompt, cmd, k))
            && !u.pending && u.line == "" && u.last == prompt + cmd
  {
    TwoEvents(t, input, chunk, Extractor(commonCommands));
    EnterRecordsTheCommand(AfterInput(t, input), Range(chunk), prompt, cmd, k, commonCommands);
  }

  /** Ctrl-C throws the line away: what is recorded and remembered of the next complete line is what is printed after it. */
  lemma CtrlCForgetsTheLine(t: Tracker, chunk: seq<Byte>, content: string, extract: string -> string)
    requires '\n' !in content && Visible(Range(chunk)) == content + "\n"
    ensures var u := AfterEvents(t, [Keys("\U{03}"), Output(chunk)], extract);
            && u.last == content && u.line == ""
            && u.recorded == t.recorded + (if t.pending && content != "" && extract(content) != "" then [extract(content)] else [])
            && (u.pending <==> t.pending && content == "")
  {
    TwoEvents(t, "\U{03}", chunk, extract);
    var m := t.(line := "");
    assert AfterInput(t, "\U{03}") == m;
    TrackingIsLineSplitting(m, Range(chunk), extract);
    assert "" + (content + "\n") == content + "\n";
    OneLineOnly(m, content, extract);
  }

  lemma OneLineOnly(t: Tracker, content: string, extract: string -> string)
    requires '\n' !in content
    ensures SplitState(t, content + "\n", extract)
         == Tracker("", content, t.pending && content == "",
                    t.recorded + if t.pending && content != "" && extract(content) != "" then [extract(content)] else [])
  {
    SplitAtNewline(content, "");
    assert content + "\n" + "" == content + "\n";
    assert CompleteLines("") == [] && [content] + [] == [content];
    FirstOfOne(content, extract);
  }

  lemma FirstOfOne(content: string, extract: string -> string)
    ensures FirstCommand([content], extract) == if content != "" && extract(content) != "" then [extract(content)] else []
    ensures AllEmpty([content]) <==> content == ""
  {
    assert [content][1..] == [] && [content][0] == content;
    assert FirstCommand([content][1..], extract) == [];
  }

  /** Every other key, printable or not, goes to the shell alone; what it types is seen when the shell prints it. */
  lemma OtherKeysChangeNothing(t: Tracker, input: string, rest: seq<Event>, extract: string -> string)
    requires '\r' !in input && '\n' !in input && input != "\U{03}"
    ensures AfterEvents(t, [Keys(input)] + rest, extract) == AfterEvents(t, rest, extract)
  {
    assert ([Keys(input)] + rest)[1..] == rest;
  }

  /** Without an Enter nothing is ever recorded. */
  lemma {:induction false} NothingWithoutEnter(t: Tracker, events: seq<Event>, extract: string -> string)
    requires !t.pending && forall e | e in events && e.Keys? :: '\r' !in e.input && '\n' !in e.input
    ensures AfterEvents(t, events, extract).recorded == t.recorded
    decreases |events|
  {
    if events != [] {
      assert events[0] in events && forall e | e in events[1..] :: e in events;
      if events[0].Output? {
        NotPendingRecordsNothing(t, Range(events[0].chunk), extract);
      }
      NothingWithoutEnter(AfterEvent(t, events[0], extract), events[1..], extract);
    }
  }

  lemma {:induction false} NotPendingRecordsNothing(t: Tracker, codes: seq<int>, extract: string -> string)
    requires !t.pending
    ensures AfterRunes(t, codes, extract).recorded == t.recorded && !AfterRunes(t, codes, extract).pending
    decreases |codes|
  {
    if codes != [] {
      NotPendingRecordsNothing(AfterRune(t, codes[0], extract), codes[1..], extract);
    }
  }
}
