// The plan side of the Arthas agent: applying the policy to a plan in place, and digging the JSON object out of a
// model's answer.

module ArthasPlan {
  import opened GoStrings
  import opened ArthasPolicy

  datatype PlannedCommand = PlannedCommand(id: string, command: string, purpose: string, risk: Risk,
                                           requiresConfirmation: bool)

  // ---------------------------------------------------------------- applyPolicy

  predicate Blank(id: string) {
    TrimSpace(id) == ""
  }

  function GeneratedId(i: nat): string {
    "cmd-" + Decimal(i + 1)
  }

  function AppliedAt(p: Policy, c: PlannedCommand, i: nat): PlannedCommand {
    var d := Classify(p, c.command);
    PlannedCommand(if Blank(c.id) then GeneratedId(i) else c.id, c.command, c.purpose, d.risk, d.requiresConfirmation)
  }

  function Applied(p: Policy, commands: seq<PlannedCommand>): (r: seq<PlannedCommand>)
    ensures |r| == |commands| && forall i | 0 <= i < |r| :: r[i] == AppliedAt(p, commands[i], i)
  {
    seq(|commands|, i requires 0 <= i < |commands| => AppliedAt(p, commands[i], i))
  }

  /** The loop body: the identifier if missing, then the two fields of the decision. */
  method ApplyPolicyTo(p: Policy, given: PlannedCommand, i: nat) returns (c: PlannedCommand)
    ensures c == AppliedAt(p, given, i)
  {
    c := given;
    if TrimSpace(c.id) == "" {
      c := c.(id := "cmd-" + Decimal(i + 1));
    }
    var decision := Classify(p, c.command);
    c := c.(risk := decision.risk);
    c := c.(requiresConfirmation := decision.requiresConfirmation);
  }

  method ApplyPolicy(p: Policy, commands: array<PlannedCommand>)
    modifies commands
    ensures commands[..] == Applied(p, old(commands[..]))
  {
    ghost var given := commands[..];
    for i := 0 to commands.Length
      invariant commands[..i] == Applied(p, given)[..i]
      invariant commands[i..] == given[i..]
    {
      assert commands[i] == commands[i..][0] == given[i];
      var c := ApplyPolicyTo(p, commands[i], i);
      commands[i] := c;
      assert Applied(p, given)[i] == c;
      assert commands[..i + 1] == commands[..i] + [c] && Applied(p, given)[..i + 1] == Applied(p, given)[..i] + [c];
      assert commands[i + 1..] == given[i..][1..] == given[i + 1..];
    }
    assert commands[..commands.Length] == commands[..];
    assert Applied(p, given)[..commands.Length] == Applied(p, given);
  }

  lemma GeneratedIdIsNotBlank(i: nat)
    ensures !Blank(GeneratedId(i)) && GeneratedId(i) != ""
  {
    assert GeneratedId(i)[0] == 'c';
    TrimSpaceOfBlank(GeneratedId(i));
  }

  lemma GeneratedIdsDiffer(i: nat, j: nat)
    requires GeneratedId(i) == GeneratedId(j)
    ensures i == j
  {
    assert GeneratedId(i)[4..] == Decimal(i + 1) && GeneratedId(j)[4..] == Decimal(j + 1);
    DecimalInjective(i + 1, j + 1);
  }

  /** After applyPolicy every command agrees with the policy and can be addressed; applying it again changes
      nothing; and what the user sees (text, purpose, order) is untouched. */
  lemma ApplyPolicySettles(p: Policy, commands: seq<PlannedCommand>)
    ensures var r := Applied(p, commands);
            && |r| == |commands| && Applied(p, r) == r
            && (forall i | 0 <= i < |r| ::
                  && r[i].command == commands[i].command && r[i].purpose == commands[i].purpose
                  && r[i].risk == RiskOf(Fields(r[i].command))
                  && (r[i].requiresConfirmation <==> r[i].risk != Low)
                  && !AllSpace(r[i].id)
                  && r[i].id == (if AllSpace(commands[i].id) then "cmd-" + Decimal(i + 1) else commands[i].id))
  {
    var r := Applied(p, commands);
    forall i | 0 <= i < |r|
      ensures !Blank(r[i].id) && r[i].id != ""
      ensures r[i].risk == RiskOf(Fields(r[i].command)) && (r[i].requiresConfirmation <==> r[i].risk != Low)
    {
      GeneratedIdIsNotBlank(i);
      DecisionFollowsTokens(p, commands[i].command);
    }
    forall i | 0 <= i < |r|
      ensures !AllSpace(r[i].id) && r[i].id == (if AllSpace(commands[i].id) then "cmd-" + Decimal(i + 1) else commands[i].id)
    {
      TrimSpaceOfBlank(r[i].id);
      TrimSpaceOfBlank(commands[i].id);
    }
  }

  predicate DistinctIds(commands: seq<PlannedCommand>) {
    forall i: nat, j: nat | i < |commands| && j < |commands| && i != j :: commands[i].id != commands[j].id
  }

  /** The supplied identifiers are distinct, and none of them is the one that a command without identifier will
      be given. */
  predicate NoClash(commands: seq<PlannedCommand>) {
    && (forall i, j | 0 <= i < j < |commands| && !Blank(commands[i].id) && !Blank(commands[j].id) ::
          commands[i].id != commands[j].id)
    && (forall i: nat, j: nat | i < |commands| && j < |commands| && Blank(commands[i].id) && !Blank(commands[j].id) ::
          commands[j].id != GeneratedId(i))
  }

  /** Identifiers end up distinct exactly when the supplied ones do not clash. */
  lemma ApplyPolicyKeepsIdsDistinct(p: Policy, commands: seq<PlannedCommand>)
    ensures DistinctIds(Applied(p, commands)) <==> NoClash(commands)
  {
    var r := Applied(p, commands);
    if NoClash(commands) {
      forall i: nat, j: nat | i < |r| && j < |r| && i != j ensures r[i].id != r[j].id {
        if Blank(commands[i].id) && Blank(commands[j].id) && GeneratedId(i) == GeneratedId(j) {
          GeneratedIdsDiffer(i, j);
        }
      }
    }
    if DistinctIds(r) {
      forall i: nat, j: nat | i < |commands| && j < |commands| && Blank(commands[i].id) && !Blank(commands[j].id)
        ensures commands[j].id != GeneratedId(i)
      {
        assert r[i].id == GeneratedId(i) && r[j].id == commands[j].id;
      }
    }
  }

  // ---------------------------------------------------------------- extractJSONContent

  const FENCE_JSON: string := "```json"
  const FENCE_JSON_UPPER: string := "```JSON"
  const FENCE: string := "```"

  function Unfenced(content: string): string {
    var c := TrimPrefix(TrimSpace(content), FENCE_JSON);
    TrimSpace(TrimSuffix(TrimPrefix(TrimPrefix(c, FENCE_JSON_UPPER), FENCE), FENCE))
  }

  /** From the first opening to the last closing brace, if there is such a stretch. */
  function Between(c: string): string {
    var start, end := IndexOf(c, '{'), LastIndexOf(c, '}');
    if start >= 0 && end > start then c[start..end + 1] else c
  }

  function JsonContent(content: string): string {
    Between(Unfenced(content))
  }

  method Unfence(content: string) returns (candidate: string)
    ensures candidate == Unfenced(content)
  {
    candidate := TrimSpace(content);
    candidate := TrimPrefix(candidate, FENCE_JSON);
    candidate := TrimPrefix(candidate, FENCE_JSON_UPPER);
    candidate := TrimPrefix(candidate, FENCE);
    candidate := TrimSuffix(candidate, FENCE);
    candidate := TrimSpace(candidate);
  }

  method ExtractJsonContent(content: string) returns (candidate: string)
    ensures candidate == JsonContent(content)
  {
    candidate := Unfence(content);
    var start := IndexOf(candidate, '{');
    var end := LastIndexOf(candidate, '}');
    if start >= 0 && end > start {
      candidate := candidate[start..end + 1];
    }
  }

  /** An object text, as far as extraction looks at it. */
  predicate IsObject(body: string) {
    |body| >= 2 && body[0] == '{' && body[|body| - 1] == '}'
  }

  /** `s` still is the body with something around it, and the surroundings have braces where they had them. */
  predicate Wraps(s: string, pre: string, body: string, post: string, open: bool, close: bool) {
    s == pre + body + post && ('{' in pre <==> open) && ('}' in post <==> close)
  }

  lemma TrimSpaceKeepsBody(s: string, pre: string, body: string, post: string, open: bool, close: bool)
    returns (pre': string, post': string)
    requires IsObject(body) && Wraps(s, pre, body, post, open, close)
    ensures Wraps(TrimSpace(s), pre', body, post', open, close)
  {
    var before := TrimLeftSplits(pre);
    var after := TrimRightSplits(post);
    pre', post' := TrimLeft(pre), TrimRight(post);
    var core := pre' + body + post';
    Regroup(before, pre', body, post', after);
    CoreIsTrimmed(pre', body, post');
    TrimSpaceRemovesSurroundings(before, core, after);
  }

  lemma Regroup(before: string, pre: string, body: string, post: string, after: string)
    ensures (before + pre) + body + (post + after) == before + (pre + body + post) + after
  {
  }

  lemma CoreIsTrimmed(pre: string, body: string, post: string)
    requires IsObject(body) && (pre == "" || !IsSpace(pre[0])) && (post == "" || !IsSpace(post[|post| - 1]))
    ensures Trimmed(pre + body + post)
  {
    var core := pre + body + post;
    assert core[0] == if pre == "" then '{' else pre[0];
    assert core[|core| - 1] == if post == "" then '}' else post[|post| - 1];
  }

  lemma TrimPrefixKeepsBody(s: string, pre: string, body: string, post: string, open: bool, close: bool, fence: string)
    returns (pre': string)
    requires IsObject(body) && Wraps(s, pre, body, post, open, close) && '{' !in fence
    ensures Wraps(TrimPrefix(s, fence), pre', body, post, open, close)
  {
    pre' := pre;
    if HasPrefix(s, fence) {
      assert s[|pre|] == '{';
      assert forall i | 0 <= i < |fence| :: s[i] == fence[i];
      pre' := pre[|fence|..];
      assert pre == fence + pre';
      assert s[|fence|..] == pre' + body + post;
    }
  }

  lemma TrimSuffixKeepsBody(s: string, pre: string, body: string, post: string, open: bool, close: bool, fence: string)
    returns (post': string)
    requires IsObject(body) && Wraps(s, pre, body, post, open, close) && '}' !in fence
    ensures Wraps(TrimSuffix(s, fence), pre, body, post', open, close)
  {
    post' := post;
    if HasSuffix(s, fence) {
      var cut := |s| - |fence|;
      assert s[|s| - |post| - 1] == '}';
      assert forall i | cut <= i < |s| :: s[i] == fence[i - cut];
      post' := post[..|post| - |fence|];
      assert post == post' + fence;
      assert s[..cut] == pre + body + post';
    }
  }

  lemma UnfencedKeepsBody(pre: string, body: string, post: string) returns (pre': string, post': string)
    requires IsObject(body)
    ensures Wraps(Unfenced(pre + body + post), pre', body, post', '{' in pre, '}' in post)
  {
    var open, close := '{' in pre, '}' in post;
    var s := pre + body + post;
    pre', post' := TrimSpaceKeepsBody(s, pre, body, post, open, close);
    s := TrimSpace(s);
    pre' := TrimPrefixKeepsBody(s, pre', body, post', open, close, FENCE_JSON);
    s := TrimPrefix(s, FENCE_JSON);
    pre' := TrimPrefixKeepsBody(s, pre', body, post', open, close, FENCE_JSON_UPPER);
    s := TrimPrefix(s, FENCE_JSON_UPPER);
    pre' := TrimPrefixKeepsBody(s, pre', body, post', open, close, FENCE);
    s := TrimPrefix(s, FENCE);
    post' := TrimSuffixKeepsBody(s, pre', body, post', open, close, FENCE);
    s := TrimSuffix(s, FENCE);
    pre', post' := TrimSpaceKeepsBody(s, pre', body, post', open, close);
  }

  /** Extraction undoes wrapping: whatever fences, blanks or prose stand around an object, the object comes back
      exactly when no brace opens before it and none closes after it. */
  lemma ExtractionUndoesWrapping(pre: string, body: string, post: string)
    requires IsObject(body)
    ensures JsonContent(pre + body + post) == body <==> '{' !in pre && '}' !in post
  {
    var pre', post' := UnfencedKeepsBody(pre, body, post);
    BetweenBraces(Unfenced(pre + body + post), pre', body, post');
  }

  lemma BetweenBraces(c: string, pre: string, body: string, post: string)
    requires IsObject(body) && c == pre + body + post
    ensures Between(c) == body <==> '{' !in pre && '}' !in post
  {
    var start, end := IndexOf(c, '{'), LastIndexOf(c, '}');
    var first, last := |pre|, |pre| + |body| - 1;
    assert c[first] == '{' && c[last] == '}';
    assert start <= first && last <= end;
    assert start == first <==> '{' !in pre;
    assert end == last <==> '}' !in post;
    assert c[first..last + 1] == body;
  }

  // ---------------------------------------------------------------- fences around other texts

  /** A fence that opens a block: with a language tag in one of two spellings, or bare. */
  predicate IsOpeningFence(fence: string) {
    fence == "```json" || fence == "```JSON" || fence == "```"
  }

  /** A text that extraction has no other reason to cut: no object in it, and no fence at its ends. */
  predicate IsPlainText(text: string) {
    text != "" && Trimmed(text) && '{' !in text && !HasSuffix(text, "```")
  }

  /** Extraction undoes fencing also where there is no object to find: an opening fence of any of the three forms followed
      by some white space, and a closing fence or none, are removed with all blanks around. */
  lemma ExtractionUndoesFencing(before: string, fence: string, space: string, text: string, close: string, after: string)
    requires AllSpace(before) && AllSpace(space) && AllSpace(after) && space != ""
    requires IsOpeningFence(fence) && IsPlainText(text)
    requires close == "" || (|close| > 3 && AllSpace(close[..|close| - 3]) && HasSuffix(close, "```"))
    ensures JsonContent(before + (fence + space + text + close) + after) == text
  {
    var inner := fence + (space + (text + close));
    FencedIsTrimmed(fence, space, text, close);
    TrimSpaceRemovesSurroundings(before, inner, after);
    OpeningFenceIsCut(fence, space, text + close);
    ClosingFenceIsCut(space, text, close);
    Grouped(fence, space, text, close);
    UnfencedBySteps(before + inner + after, inner, space + (text + close), text);
    NothingToCut(text);
  }

  lemma Grouped(fence: string, space: string, text: string, close: string)
    ensures fence + space + text + close == fence + (space + (text + close))
  {
  }

  lemma UnfencedBySteps(content: string, inner: string, rest: string, text: string)
    requires TrimSpace(content) == inner
    requires TrimPrefix(TrimPrefix(TrimPrefix(inner, FENCE_JSON), FENCE_JSON_UPPER), FENCE) == rest
    requires TrimSpace(TrimSuffix(rest, FENCE)) == text
    ensures Unfenced(content) == text
  {
  }

  lemma FencedIsTrimmed(fence: string, space: string, text: string, close: string)
    requires IsOpeningFence(fence) && text != "" && !IsSpace(text[|text| - 1]) && (close == "" || HasSuffix(close, "```"))
    ensures var inner := fence + (space + (text + close)); inner != "" && Trimmed(inner)
  {
    var s := fence + (space + (text + close));
    assert s[0] == fence[0] == '`';
    if close == "" {
      assert s[|s| - 1] == text[|text| - 1];
    } else {
      assert s[|s| - 1] == close[|close| - 1] == close[|close| - 3..][2];
    }
  }

  lemma NothingToCut(text: string)
    requires '{' !in text
    ensures Between(text) == text
  {
  }

  lemma OpeningFenceIsCut(fence: string, space: string, rest: string)
    requires IsOpeningFence(fence) && space != "" && AllSpace(space)
    ensures var c := fence + (space + rest);
            TrimPrefix(TrimPrefix(TrimPrefix(c, FENCE_JSON), FENCE_JSON_UPPER), FENCE) == space + rest
  {
    var c := fence + (space + rest);
    var r := space + rest;
    assert r[0] == space[0] && IsSpace(r[0]);
    assert !HasPrefix(r, FENCE_JSON) && !HasPrefix(r, FENCE_JSON_UPPER) && !HasPrefix(r, FENCE);
    assert c[|fence|..] == r;
    assert c[|fence|] == r[0];
  }

  lemma ClosingFenceIsCut(space: string, text: string, close: string)
    requires AllSpace(space) && IsPlainText(text)
    requires close == "" || (|close| > 3 && AllSpace(close[..|close| - 3]) && HasSuffix(close, "```"))
    ensures TrimSpace(TrimSuffix(space + (text + close), FENCE)) == text
  {
    var s := space + (text + close);
    if close == "" {
      assert s == space + text + "";
      assert HasSuffix(s, FENCE) ==> |text| >= 3 && HasSuffix(text, FENCE) by {
        if HasSuffix(s, FENCE) {
          FenceIsInText(space, text);
        }
      }
      TrimSpaceRemovesSurroundings(space, text, "");
    } else {
      var blanks := close[..|close| - 3];
      assert close == blanks + FENCE;
      assert s == (space + text + blanks) + FENCE;
      assert s[..|s| - 3] == space + text + blanks;
      assert s[|s| - 3..] == FENCE;
      TrimSpaceRemovesSurroundings(space, text, blanks);
    }
  }

  lemma FenceIsInText(space: string, text: string)
    requires AllSpace(space) && text != "" && HasSuffix(space + text, FENCE)
    ensures HasSuffix(text, FENCE)
  {
    var s := space + text;
    var tail := s[|s| - 3..];
    assert forall k | 0 <= k < 3 :: tail[k] == '`' && tail[k] == s[|s| - 3 + k];
    assert forall k | 0 <= k < |space| :: s[k] == space[k];
    assert |space| > 0 ==> s[|space| - 1] != '`';
    assert text[|text| - 3..] == tail;
  }
}
