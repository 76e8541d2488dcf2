// extractCommandFromLine and stripANSI of the pod and SSH terminals: from a tracked terminal line to the
// command the user typed.

module CommandExtraction {
  import opened GoStrings

  const ESC := '\U{1B}'

  /** Prompt endings, in the order in which they are tried. */
  const PROMPTS: seq<string> := ["# ", "$ ", "] ", "> "]

  predicate IsPrintable(c: char) {
    ' ' <= c <= '~'
  }

  predicate Printable(s: string) {
    forall i | 0 <= i < |s| :: IsPrintable(s[i])
  }

  // ---------------------------------------------------------------- stripANSI

  function StripAnsi(s: string, inEscape: bool): string {
    if s == "" then ""
    else if s[0] == ESC then StripAnsi(s[1..], true)
    else if inEscape then StripAnsi(s[1..], !('a' <= s[0] <= 'z' || 'A' <= s[0] <= 'Z'))
    else [s[0]] + StripAnsi(s[1..], false)
  }

  /** An escape sequence, ESC up to the next ASCII letter, is removed wherever it stands, and nothing else is. */
  lemma StripAnsiRemoves(before: string, params: string, letter: char, after: string)
    requires ESC !in before && ESC !in params
    requires 'a' <= letter <= 'z' || 'A' <= letter <= 'Z'
    requires forall c | c in params :: !('a' <= c <= 'z') && !('A' <= c <= 'Z')
    ensures StripAnsi(before + ([ESC] + (params + ([letter] + after))), false) == before + StripAnsi(after, false)
  {
    var inside := params + ([letter] + after);
    StripAnsiPasses(before, [ESC] + inside);
    assert ([ESC] + inside)[1..] == inside;
    StripAnsiInside(params, letter, after);
  }

  lemma {:induction false} StripAnsiPasses(before: string, rest: string)
    requires ESC !in before
    ensures StripAnsi(before + rest, false) == before + StripAnsi(rest, false)
  {
    if before == "" {
      assert before + rest == rest;
    } else {
      assert before[0] in before && (before + rest)[1..] == before[1..] + rest;
      StripAnsiPasses(before[1..], rest);
    }
  }

  lemma {:induction false} StripAnsiInside(params: string, letter: char, after: string)
    requires ESC !in params && letter != ESC
    requires 'a' <= letter <= 'z' || 'A' <= letter <= 'Z'
    requires forall c | c in params :: !('a' <= c <= 'z') && !('A' <= c <= 'Z')
    ensures StripAnsi(params + ([letter] + after), true) == StripAnsi(after, false)
  {
    if params == "" {
      assert params + ([letter] + after) == [letter] + after;
      assert ([letter] + after)[1..] == after;
    } else {
      assert params[0] in params && (params + ([letter] + after))[1..] == params[1..] + ([letter] + after);
      assert forall c | c in params[1..] :: c in params;
      StripAnsiInside(params[1..], letter, after);
    }
  }

  method StripAnsiLoop(s: string) returns (result: string)
    ensures result == StripAnsi(s, false)
  {
    result := "";
    var inEscape := false;
    for i := 0 to |s|
      invariant result + StripAnsi(s[i..], inEscape) == StripAnsi(s, false)
    {
      var c := s[i];
      assert s[i..][1..] == s[i + 1..];
      if c == ESC {
        inEscape := true;
        continue;
      }
      if inEscape {
        if 'a' <= c <= 'z' || 'A' <= c <= 'Z' {
          inEscape := false;
        }
        continue;
      }
      result := result + [c];
    }
  }

  /** The only escape sequences that stripping can remove start with ESC. */
  lemma {:induction false} StripAnsiKeeps(s: string)
    requires ESC !in s
    ensures StripAnsi(s, false) == s
  {
    if s != "" {
      StripAnsiKeeps(s[1..]);
    }
  }

  // ---------------------------------------------------------------- extraction

  /** What follows the last occurrence of the first prompt ending that leaves a command; "" if none does. */
  function AfterPrompt(line: string, prompts: seq<string>): string {
    if prompts == [] then ""
    else
      var idx := LastIndex(line, prompts[0]);
      var cmd := if idx == -1 then "" else TrimSpace(line[idx + |prompts[0]|..]);
      if cmd != "" then cmd else AfterPrompt(line, prompts[1..])
  }

  predicate LooksLike(lineLower: string, cmd: string) {
    HasPrefix(lineLower, cmd + " ") || lineLower == cmd
  }

  predicate LooksLikeCommand(line: string, commonCommands: seq<string>) {
    exists cmd | cmd in commonCommands :: LooksLike(ToLower(line), cmd)
  }

  function ExtractCommand(raw: string, commonCommands: seq<string>): string {
    var line := TrimSpace(StripAnsi(raw, false));
    var cmd := AfterPrompt(line, PROMPTS);
    if line == "" then ""
    else if cmd != "" then cmd
    else if LooksLikeCommand(line, commonCommands) then line
    else ""
  }

  method ExtractCommandFromLine(raw: string, commonCommands: seq<string>) returns (r: string)
    ensures r == ExtractCommand(raw, commonCommands)
  {
    var line := StripAnsiLoop(raw);
    line := TrimSpace(line);
    if line == "" {
      return "";
    }
    r := ScanPrompts(line, PROMPTS);
    if r != "" {
      return;
    }
    var found := ScanCommands(ToLower(line), commonCommands);
    if found {
      return line;
    }
    return "";
  }

  /** The loop over promptPatterns. */
  method ScanPrompts(line: string, prompts: seq<string>) returns (r: string)
    ensures r == AfterPrompt(line, prompts)
  {
    for i := 0 to |prompts|
      invariant AfterPrompt(line, prompts) == AfterPrompt(line, prompts[i..])
    {
      assert prompts[i..][1..] == prompts[i + 1..];
      var idx := LastIndex(line, prompts[i]);
      if idx != -1 {
        var cmd := TrimSpace(line[idx + |prompts[i]|..]);
        if cmd != "" {
          return cmd;
        }
      }
    }
    return "";
  }

  /** The loop over commonCommands. */
  method ScanCommands(lineLower: string, commonCommands: seq<string>) returns (found: bool)
    ensures found <==> exists cmd | cmd in commonCommands :: LooksLike(lineLower, cmd)
  {
    for i := 0 to |commonCommands|
      invariant forall j | 0 <= j < i :: !LooksLike(lineLower, commonCommands[j])
    {
      if LooksLike(lineLower, commonCommands[i]) {
        return true;
      }
    }
    return false;
  }

  /** The tail of a line behind a prompt ending, trimmed. */
  lemma TrimmedTail(line: string, from: nat) returns (before: string, after: string)
    requires from <= |line|
    ensures line == before + TrimSpace(line[from..]) + after && Trimmed(TrimSpace(line[from..]))
  {
    var pre, post := TrimSpaceIsCore(line[from..]);
    before, after := line[..from] + pre, post;
    Regroup(line[..from], pre, TrimSpace(line[from..]), post);
    assert line == line[..from] + line[from..];
  }

  lemma Regroup(a: string, b: string, c: string, d: string)
    ensures a + (b + c + d) == a + b + c + d
  {
  }

  /** `part` stands in the line between `before` and `after`, and has no blanks around. */
  predicate IsTrimmedPart(line: string, before: string, part: string, after: string) {
    line == before + part + after && Trimmed(part)
  }

  lemma NothingIsAPart(line: string)
    ensures IsTrimmedPart(line, "", "", line)
  {
    assert line == "" + "" + line;
  }

  lemma {:induction false} AfterPromptIsATail(line: string, prompts: seq<string>) returns (from: nat)
    ensures AfterPrompt(line, prompts) != "" ==> from <= |line| && AfterPrompt(line, prompts) == TrimSpace(line[from..])
  {
    from := 0;
    if prompts != [] {
      var idx := LastIndex(line, prompts[0]);
      if idx != -1 && TrimSpace(line[idx + |prompts[0]|..]) != "" {
        from := idx + |prompts[0]|;
      } else {
        from := AfterPromptIsATail(line, prompts[1..]);
      }
    }
  }

  lemma PartOfTrimmed(raw: string, before: string, part: string, after: string) returns (before': string, after': string)
    requires IsTrimmedPart(TrimSpace(raw), before, part, after)
    ensures IsTrimmedPart(raw, before', part, after')
  {
    var pre, post := TrimSpaceIsCore(raw);
    before', after' := pre + before, after + post;
    Regroup2(pre, before, part, after, post);
  }

  lemma Regroup2(a: string, b: string, c: string, d: string, e: string)
    ensures a + (b + c + d) + e == a + b + c + (d + e)
  {
  }

  /** Whatever the line, what is extracted from it is a part of its visible text without blanks around. */
  lemma ExtractedIsTrimmedPart(raw: string, commonCommands: seq<string>) returns (before: string, after: string)
    ensures IsTrimmedPart(StripAnsi(raw, false), before, ExtractCommand(raw, commonCommands), after)
  {
    var visible := StripAnsi(raw, false);
    before, after := ExtractedFromVisible(visible, ExtractCommand(raw, commonCommands));
  }

  lemma ExtractedFromVisible(visible: string, r: string) returns (before: string, after: string)
    requires r in {"", TrimSpace(visible), AfterPrompt(TrimSpace(visible), PROMPTS)}
    ensures IsTrimmedPart(visible, before, r, after)
  {
    var line := TrimSpace(visible);
    if r == "" {
      NothingIsAPart(visible);
      before, after := "", visible;
    } else if r == line {
      before, after := TrimSpaceIsCore(visible);
    } else {
      var from := AfterPromptIsATail(line, PROMPTS);
      before, after := TrimmedTail(line, from);
      before, after := PartOfTrimmed(visible, before, r, after);
    }
  }

  // ---------------------------------------------------------------- extraction undoes the prompt

  /** The visible character of the k-th prompt ending; a blank follows it. */
  function Mark(k: nat): char
    requires k < |PROMPTS|
  {
    PROMPTS[k][0]
  }

  ghost predicate MarkedAt(s: string, k: nat, i: int)
    requires k < |PROMPTS|
  {
    0 <= i && i + 1 < |s| && s[i] == Mark(k) && s[i + 1] == ' '
  }

  ghost predicate Marked(s: string, k: nat)
    requires k < |PROMPTS|
  {
    exists i :: MarkedAt(s, k, i)
  }

  /** The four endings of prompts that are recognised: a root prompt is looked for first, then a user's, a bracket, and any
      other. */
  function Ending(k: nat): string
    requires k < 4
  {
    if k == 0 then "# " else if k == 1 then "$ " else if k == 2 then "] " else "> "
  }

  /** `prompt` is what the shell printed: it ends in the k-th marker. */
  predicate EndsInMarker(prompt: string, k: nat) {
    k < 4 && HasSuffix(prompt, Ending(k))
  }

  lemma MarkedIsOccurs(s: string, k: nat)
    requires k < |PROMPTS|
    ensures forall i :: MarkedAt(s, k, i) <==> OccursAt(s, PROMPTS[k], i)
    ensures Marked(s, k) <==> Occurs(s, PROMPTS[k])
    ensures Marked(s, k) <==> LastIndex(s, PROMPTS[k]) != -1
  {
    forall i ensures MarkedAt(s, k, i) <==> OccursAt(s, PROMPTS[k], i) {
      if 0 <= i && i + 2 <= |s| {
        assert s[i..i + 2] == [s[i], s[i + 1]];
        assert PROMPTS[k] == [Mark(k), ' '];
      }
    }
    if Marked(s, k) {
      var i :| MarkedAt(s, k, i);
      assert OccursAt(s, PROMPTS[k], i);
    }
    if Occurs(s, PROMPTS[k]) {
      var i :| OccursAt(s, PROMPTS[k], i);
      assert MarkedAt(s, k, i);
    }
  }

  lemma {:induction false} AfterPromptSkips(line: string, prompts: seq<string>, k: nat)
    requires k <= |prompts| && forall j | 0 <= j < k :: LastIndex(line, prompts[j]) == -1
    ensures AfterPrompt(line, prompts) == AfterPrompt(line, prompts[k..])
  {
    if k > 0 {
      AfterPromptSkips(line, prompts[1..], k - 1);
      assert prompts[1..][k - 1..] == prompts[k..];
    }
  }

  /** Once a marker occurs in a line that does not end in a blank, the text after the last occurrence of
      the first occurring marker is the answer. */
  lemma AfterPromptAt(line: string, m: nat) returns (idx: nat)
    requires m < |PROMPTS| && Trimmed(line) && Marked(line, m)
    requires forall j: nat | j < m :: !Marked(line, j)
    ensures MarkedAt(line, m, idx) && forall i :: MarkedAt(line, m, i) ==> i <= idx
    ensures idx + 2 < |line|
    ensures AfterPrompt(line, PROMPTS) == TrimSpace(line[idx + 2..]) != ""
  {
    idx := LastMark(line, m);
    TailIsVisible(line, m, idx);
    MarkerShape(m);
    NoEarlierPrompt(line, m);
    AfterPromptHead(line, PROMPTS, m, idx);
    NoLaterMark(line, m, idx);
  }

  lemma LastMark(line: string, m: nat) returns (idx: nat)
    requires m < |PROMPTS| && Marked(line, m)
    ensures idx == LastIndex(line, PROMPTS[m]) && MarkedAt(line, m, idx)
  {
    MarkedIsOccurs(line, m);
    idx := LastIndex(line, PROMPTS[m]);
  }

  lemma NoLaterMark(line: string, m: nat, idx: nat)
    requires m < |PROMPTS| && idx == LastIndex(line, PROMPTS[m])
    ensures forall i :: MarkedAt(line, m, i) ==> i <= idx
  {
    MarkedIsOccurs(line, m);
  }

  lemma NoEarlierPrompt(line: string, m: nat)
    requires m < |PROMPTS| && forall j: nat | j < m :: !Marked(line, j)
    ensures forall j | 0 <= j < m :: LastIndex(line, PROMPTS[j]) == -1
  {
    forall j | 0 <= j < m ensures LastIndex(line, PROMPTS[j]) == -1 {
      MarkedIsOccurs(line, j);
    }
  }

  lemma TailIsVisible(line: string, m: nat, idx: nat)
    requires m < |PROMPTS| && Trimmed(line) && MarkedAt(line, m, idx)
    ensures idx + 2 < |line| && TrimSpace(line[idx + 2..]) != ""
  {
    var tail := line[idx + 2..];
    assert idx + 2 < |line|;
    assert tail[|tail| - 1] == line[|line| - 1];
    TrimSpaceOfBlank(tail);
  }

  lemma AfterPromptHead(line: string, prompts: seq<string>, m: nat, idx: nat)
    requires m < |prompts| && |prompts[m]| == 2 && LastIndex(line, prompts[m]) == idx
    requires forall j | 0 <= j < m :: LastIndex(line, prompts[j]) == -1
    requires idx + 2 <= |line| && TrimSpace(line[idx + 2..]) != ""
    ensures AfterPrompt(line, prompts) == TrimSpace(line[idx + 2..])
  {
    AfterPromptSkips(line, prompts, m);
  }

  lemma {:induction false} FirstMarked(line: string, k: nat) returns (m: nat)
    requires k < |PROMPTS| && Marked(line, k)
    ensures m <= k && Marked(line, m)
    ensures forall j: nat | j < m :: !Marked(line, j)
  {
    m := k;
    if j: nat :| j < k && Marked(line, j) {
      m := FirstMarked(line, j);
    }
  }

  /** How long a tail is after trimming: as long as it lasts from its first visible character on. */
  lemma TrimmedTailLength(tail: string, v: nat)
    requires v < |tail| && !IsSpace(tail[v]) && !IsSpace(tail[|tail| - 1])
    ensures |TrimSpace(tail)| >= |tail| - v
  {
    var before, after := TrimSpaceIsCore(tail);
    assert forall i | 0 <= i < |before| :: IsSpace(tail[i]);
    assert after == "";
  }

  lemma MarksAreVisible(k: nat)
    requires k < |PROMPTS|
    ensures !IsSpace(Mark(k))
    ensures forall j: nat | j < |PROMPTS| && Mark(j) == Mark(k) :: j == k
  {
  }

  /** On a line without leading blanks the command comes back exactly when the scan reaches this prompt. */
  lemma AfterPromptExact(prompt: string, cmd: string, k: nat)
    requires k < |PROMPTS| && |prompt| >= 2 && MarkedAt(prompt, k, |prompt| - 2)
    requires cmd != "" && Trimmed(cmd) && Trimmed(prompt + cmd)
    ensures AfterPrompt(prompt + cmd, PROMPTS) != ""
    ensures AfterPrompt(prompt + cmd, PROMPTS) == cmd
       <==> (forall j: nat | j < k :: !Marked(prompt + cmd, j)) && !Marked(cmd, k)
  {
    var line, at := prompt + cmd, |prompt| - 2;
    assert MarkedAt(line, k, at);
    var m := FirstMarked(line, k);
    var idx := AfterPromptAt(line, m);
    StopsAtPrompt(prompt, cmd, k, m, idx);
  }

  /** Given where the scan stops: the answer is the command exactly if no other marker could have stopped it. */
  lemma StopsAtPrompt(prompt: string, cmd: string, k: nat, m: nat, idx: nat)
    requires k < |PROMPTS| && |prompt| >= 2 && MarkedAt(prompt, k, |prompt| - 2) && cmd != "" && Trimmed(cmd)
    requires m <= k && MarkedAt(prompt + cmd, m, idx) && idx + 2 < |prompt + cmd|
    requires forall i :: MarkedAt(prompt + cmd, m, i) ==> i <= idx
    requires forall j: nat | j < m :: !Marked(prompt + cmd, j)
    ensures TrimSpace((prompt + cmd)[idx + 2..]) == cmd
       <==> (forall j: nat | j < k :: !Marked(prompt + cmd, j)) && !Marked(cmd, k)
  {
    if idx == |prompt| - 2 {
      AtPrompt(prompt, cmd, k, m);
    } else {
      OtherTail(prompt, cmd, k, m, idx);
    }
  }

  lemma AtPrompt(prompt: string, cmd: string, k: nat, m: nat)
    requires k < |PROMPTS| && |prompt| >= 2 && MarkedAt(prompt, k, |prompt| - 2) && cmd != "" && Trimmed(cmd)
    requires m <= k && MarkedAt(prompt + cmd, m, |prompt| - 2)
    requires forall i :: MarkedAt(prompt + cmd, m, i) ==> i <= |prompt| - 2
    ensures m == k && !Marked(cmd, k)
    ensures TrimSpace((prompt + cmd)[|prompt|..]) == cmd
  {
    MarksAreVisible(k);
    assert (prompt + cmd)[|prompt| - 2] == prompt[|prompt| - 2];
    assert (prompt + cmd)[|prompt|..] == cmd;
    TrimSpaceRemovesSurroundings("", cmd, "");
    assert "" + cmd + "" == cmd;
    forall i ensures !MarkedAt(cmd, k, i) {
      assert MarkedAt(cmd, k, i) ==> MarkedAt(prompt + cmd, k, i + |prompt|);
    }
  }

  /** When the scan stops at any other place than the end of the prompt, the answer is not the command. */
  lemma OtherTail(prompt: string, cmd: string, k: nat, m: nat, idx: nat)
    requires k < |PROMPTS| && |prompt| >= 2 && MarkedAt(prompt, k, |prompt| - 2)
    requires cmd != "" && Trimmed(cmd)
    requires m <= k && MarkedAt(prompt + cmd, m, idx) && idx + 2 < |prompt + cmd| && idx != |prompt| - 2
    requires forall i :: MarkedAt(prompt + cmd, m, i) ==> i <= idx
    ensures TrimSpace((prompt + cmd)[idx + 2..]) != cmd
    ensures if m == k then Marked(cmd, k) else Marked(prompt + cmd, m)
  {
    var line, at := prompt + cmd, |prompt| - 2;
    var tail := line[idx + 2..];
    MarksAreVisible(m);
    MarksAreVisible(k);
    assert line[at] == Mark(k) && MarkedAt(line, k, at);
    assert tail[|tail| - 1] == cmd[|cmd| - 1];
    assert idx != |prompt| - 1;
    if idx >= |prompt| {
      assert cmd[idx - |prompt|] == line[idx] && cmd[idx + 1 - |prompt|] == line[idx + 1];
      assert MarkedAt(cmd, m, idx - |prompt|);
    } else {
      assert idx + 2 <= at && tail[at - idx - 2] == line[at];
      TrimmedTailLength(tail, at - idx - 2);
    }
  }

  lemma MarkedInTrimmed(before: string, core: string, k: nat)
    requires AllSpace(before) && k < |PROMPTS|
    ensures Marked(before + core, k) <==> Marked(core, k)
  {
    var s := before + core;
    if Marked(s, k) {
      var i :| MarkedAt(s, k, i);
      assert MarkedAt(core, k, i - |before|);
    }
    if Marked(core, k) {
      var i :| MarkedAt(core, k, i);
      assert MarkedAt(s, k, i + |before|);
    }
  }

  lemma MarkerShape(k: nat)
    requires k < |PROMPTS|
    ensures PROMPTS[k] == [Mark(k), ' ']
  {
  }

  lemma PromptEnd(prompt: string, k: nat)
    requires EndsInMarker(prompt, k)
    ensures |prompt| >= 2 && MarkedAt(prompt, k, |prompt| - 2)
  {
    MarkerShape(k);
    assert prompt[|prompt| - 2..] == [prompt[|prompt| - 2], prompt[|prompt| - 1]];
  }

  /** A prompt that ends in a marker keeps it when leading blanks are trimmed. */
  lemma TrimmedPrompt(prompt: string, cmd: string, k: nat) returns (before: string, core: string)
    requires EndsInMarker(prompt, k) && cmd != "" && Trimmed(cmd)
    ensures AllSpace(before) && prompt == before + core
    ensures |core| >= 2 && MarkedAt(core, k, |core| - 2) && Trimmed(core + cmd)
    ensures TrimSpace(prompt + cmd) == core + cmd
  {
    before, core := PromptCore(prompt, k);
    CoreIsTrimmed(before, core, cmd);
    assert prompt + cmd == before + core + cmd;
  }

  lemma CoreIsTrimmed(before: string, core: string, cmd: string)
    requires AllSpace(before) && core != "" && !IsSpace(core[0]) && cmd != "" && Trimmed(cmd)
    ensures Trimmed(core + cmd) && TrimSpace(before + core + cmd) == core + cmd
  {
    var whole := core + cmd;
    assert whole[0] == core[0] && whole[|whole| - 1] == cmd[|cmd| - 1];
    TrimSpaceRemovesSurroundings(before, whole, "");
    assert before + whole + "" == before + core + cmd;
  }

  lemma PromptCore(prompt: string, k: nat) returns (before: string, core: string)
    requires EndsInMarker(prompt, k)
    ensures AllSpace(before) && prompt == before + core
    ensures |core| >= 2 && MarkedAt(core, k, |core| - 2) && !IsSpace(core[0])
  {
    before := TrimLeftSplits(prompt);
    core := TrimLeft(prompt);
    PromptEnd(prompt, k);
    MarksAreVisible(k);
    assert forall i | 0 <= i < |before| :: IsSpace(prompt[i]);
    assert core[|core| - 2] == prompt[|prompt| - 2] && core[|core| - 1] == prompt[|prompt| - 1];
  }

  /** No marker that is tried earlier occurs in the line, and the prompt's own does not recur in the command. */
  ghost predicate ReachesPrompt(prompt: string, cmd: string, k: nat)
    requires k < 4
  {
    (forall j: nat | j < k :: !Occurs(prompt + cmd, Ending(j))) && !Occurs(cmd, Ending(k))
  }

  /** Extraction undoes prompt printing. For every printable prompt ending in a marker and every trimmed,
      non-empty command, extracting from prompt ++ command gives back the command if and only if no
      marker that is tried earlier occurs in the line and the prompt's own marker does not recur in the
      command. */
  lemma ExtractUndoesPrompt(prompt: string, cmd: string, k: nat, commonCommands: seq<string>)
    requires EndsInMarker(prompt, k) && Printable(prompt + cmd)
    requires cmd != "" && Trimmed(cmd)
    ensures ExtractCommand(prompt + cmd, commonCommands) != ""
    ensures ExtractCommand(prompt + cmd, commonCommands) == cmd
       <==> ReachesPrompt(prompt, cmd, k)
  {
    var before, core := TrimmedPrompt(prompt, cmd, k);
    ReachesIsUnmarked(prompt, before, core, cmd, k);
    AfterPromptExact(core, cmd, k);
    ExtractFromPrintable(prompt + cmd, commonCommands);
  }

  lemma ReachesIsUnmarked(prompt: string, before: string, core: string, cmd: string, k: nat)
    requires k < 4 && AllSpace(before) && prompt == before + core
    ensures ReachesPrompt(prompt, cmd, k) <==> (forall j: nat | j < k :: !Marked(core + cmd, j)) && !Marked(cmd, k)
  {
    assert prompt + cmd == before + (core + cmd);
    forall j: nat | j < 4 ensures Occurs(prompt + cmd, Ending(j)) <==> Marked(core + cmd, j) {
      assert Ending(j) == PROMPTS[j];
      MarkedInTrimmed(before, core + cmd, j);
      MarkedIsOccurs(prompt + cmd, j);
    }
    assert Ending(k) == PROMPTS[k];
    MarkedIsOccurs(cmd, k);
  }

  lemma ExtractFromPrintable(line: string, commonCommands: seq<string>)
    requires Printable(line)
    ensures AfterPrompt(TrimSpace(line), PROMPTS) != "" && TrimSpace(line) != "" ==>
      ExtractCommand(line, commonCommands) == AfterPrompt(TrimSpace(line), PROMPTS)
  {
    StripAnsiKeeps(line);
  }

  /** The condition matters: a shell redirection makes the command look like a prompt, and the audit log
      keeps only the file name. */
  lemma RedirectionIsMistakenForAPrompt()
    ensures ExtractCommand("h> cat a > f", []) != "cat a > f"
  {
    var prompt, cmd := "h> ", "cat a > f";
    assert prompt + cmd == "h> cat a > f";
    assert prompt[1..] == PROMPTS[3];
    assert MarkedAt(cmd, 3, 6);
    MarkedIsOccurs(cmd, 3);
    ExtractUndoesPrompt(prompt, cmd, 3, []);
  }

  /** In particular behind a `$ ` prompt, on a line without `#` and with no other `$`. */
  lemma DollarPrompt(prompt: string, cmd: string, commonCommands: seq<string>)
    requires EndsInMarker(prompt, 1) && Printable(prompt + cmd) && cmd != "" && Trimmed(cmd)
    requires '#' !in prompt + cmd && '$' !in cmd
    ensures ExtractCommand(prompt + cmd, commonCommands) == cmd
  {
    NoMarkWithout(prompt + cmd, 0);
    NoMarkWithout(cmd, 1);
    ExtractUndoesPrompt(prompt, cmd, 1, commonCommands);
  }

  /** What a coloured prompt leaves in the line buffer once ESC is dropped: the colour reset is taken for a part of the
      command. */
  lemma ColourResetIsTakenForTheCommand()
    ensures ExtractCommand("[32m$ " + "[0mls", []) == "[0mls"
  {
    var prompt, cmd := "[32m$ ", "[0mls";
    assert prompt[4..] == PROMPTS[1];
    DollarPrompt(prompt, cmd, []);
  }

  lemma NoMarkWithout(s: string, k: nat)
    requires k < |PROMPTS| && Mark(k) !in s
    ensures !Occurs(s, PROMPTS[k])
  {
    MarkedIsOccurs(s, k);
  }

  // ---------------------------------------------------------------- lines without a prompt

  lemma {:induction false} NoPromptNoCut(line: string, prompts: seq<string>)
    requires forall p | p in prompts :: !Occurs(line, p)
    ensures AfterPrompt(line, prompts) == ""
  {
    if prompts != [] {
      assert prompts[0] in prompts && forall p | p in prompts[1..] :: p in prompts;
      NoPromptNoCut(line, prompts[1..]);
    }
  }

  lemma LowerKeepsPrintable(s: string)
    requires Printable(s)
    ensures Printable(ToLower(s)) && (s != "" && Trimmed(s) ==> ToLower(s)[0] != ' ')
  {
    forall i | 0 <= i < |s| ensures IsPrintable(ToLower(s)[i]) && (ToLower(s)[i] == ' ' <==> s[i] == ' ') {
      assert IsPrintable(s[i]) && ToLower(s)[i] == LowerChar(s[i]);
    }
  }

  /** A command fits a line exactly when it is the line's first word. */
  lemma LooksLikeFirstWord(line: string, cmd: string)
    requires Printable(line) && line != "" && line[0] != ' ' && ' ' !in cmd
    ensures Fields(line) != [] && (LooksLike(line, cmd) <==> Fields(line)[0] == cmd)
  {
    assert !IsSpace(line[0]);
    var n := TokenLength(line);
    assert Fields(line)[0] == line[..n];
    assert n < |line| ==> IsPrintable(line[n]) && line[n] == ' ';
    if LooksLike(line, cmd) {
      var rest := line[|cmd|..];
      assert line == cmd + rest;
      forall i | 0 <= i < |cmd| ensures !IsSpace(cmd[i]) {
        assert cmd[i] == line[i] && IsPrintable(line[i]) && cmd[i] in cmd;
      }
      assert HasPrefix(line, cmd + " ") ==> rest[0] == (cmd + " ")[|cmd|];
      TokenLengthOf(cmd, rest);
    }
    if line[..n] == cmd && n < |line| {
      assert line[..n + 1] == cmd + " ";
    }
  }

  /** A line in which no prompt is recognised is recorded, as a whole, exactly when its first word, in any case, is one of the
      common commands. */
  lemma BareLineIsRecorded(line: string, commonCommands: seq<string>)
    requires Printable(line) && line != "" && Trimmed(line)
    requires !Occurs(line, "# ") && !Occurs(line, "$ ") && !Occurs(line, "] ") && !Occurs(line, "> ")
    requires forall cmd | cmd in commonCommands :: ' ' !in cmd
    ensures Fields(ToLower(line)) != []
    ensures ExtractCommand(line, commonCommands) == if Fields(ToLower(line))[0] in commonCommands then line else ""
  {
    LowerKeepsPrintable(line);
    LooksLikeFirstWord(ToLower(line), "");
    WithoutPrompt(line, commonCommands);
    forall cmd | cmd in commonCommands ensures LooksLike(ToLower(line), cmd) <==> Fields(ToLower(line))[0] == cmd {
      LooksLikeFirstWord(ToLower(line), cmd);
    }
  }

  lemma WithoutPrompt(line: string, commonCommands: seq<string>)
    requires Printable(line) && line != "" && Trimmed(line)
    requires !Occurs(line, "# ") && !Occurs(line, "$ ") && !Occurs(line, "] ") && !Occurs(line, "> ")
    ensures ExtractCommand(line, commonCommands) == if LooksLikeCommand(line, commonCommands) then line else ""
  {
    StripAnsiKeeps(line);
    TrimSpaceRemovesSurroundings("", line, "");
    assert "" + line + "" == line;
    NoPromptNoCut(line, PROMPTS);
  }
}
