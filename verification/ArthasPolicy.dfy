// The risk policy for Arthas commands.

module ArthasPolicy {
  import opened GoStrings

  datatype Risk = Low | Medium | High

  datatype Reason = EmptyCommand | DangerousCommand | BoundedWatch | UnboundedWatch | ReadOnlyCommand | NotWhitelisted

  datatype Decision = Decision(risk: Risk, autoExecutable: bool, requiresConfirmation: bool, reason: Reason,
                               maxOutputBytes: int)

  datatype Policy = Policy(autoExecLowRisk: bool, maxOutputBytes: int)

  predicate IsLowRisk(name: string) {
    || name == "version" || name == "help" || name == "sysprop" || name == "sysenv" || name == "jvm"
    || name == "dashboard" || name == "thread" || name == "memory" || name == "classloader"
  }

  predicate IsHighRisk(name: string) {
    || name == "ognl" || name == "vmtool" || name == "redefine" || name == "retransform"
    || name == "dump" || name == "heapdump"
  }

  predicate IsWatcher(name: string) {
    name == "watch" || name == "trace"
  }

  function Normalize(command: string): string {
    Join(Fields(TrimSpace(command)), " ")
  }

  function FirstToken(command: string): string {
    var parts := Fields(command);
    if parts == [] then "" else ToLower(parts[0])
  }

  predicate LimitsAt(parts: seq<string>, i: nat)
    requires i < |parts|
  {
    (parts[i] == "-n" && i + 1 < |parts|) || (HasPrefix(parts[i], "-n") && |parts[i]| > 2)
  }

  predicate HasLimit(command: string) {
    var parts := Fields(command);
    exists i: nat | i < |parts| :: LimitsAt(parts, i)
  }

  predicate HasAnchor(command: string) {
    var parts := Fields(command);
    |parts| >= 3 && '*' !in parts[1] && '*' !in parts[2]
  }

  function HighRisk(p: Policy, reason: Reason): Decision {
    Decision(High, false, true, reason, p.maxOutputBytes)
  }

  function Classify(p: Policy, command: string): Decision {
    ClassifyNormalized(p, Normalize(command))
  }

  function ClassifyNormalized(p: Policy, normalized: string): Decision {
    var name := FirstToken(normalized);
    if normalized == "" then HighRisk(p, EmptyCommand)
    else if IsHighRisk(name) then HighRisk(p, DangerousCommand)
    else if IsWatcher(name) then
      if HasLimit(normalized) && HasAnchor(normalized) then Decision(Medium, false, true, BoundedWatch, p.maxOutputBytes)
      else HighRisk(p, UnboundedWatch)
    else if IsLowRisk(name) then Decision(Low, p.autoExecLowRisk, false, ReadOnlyCommand, p.maxOutputBytes)
    else Decision(Medium, false, true, NotWhitelisted, p.maxOutputBytes)
  }

  function Classifier(p: Policy): string -> Decision {
    command => Classify(p, command)
  }

  lemma NormalizeKeepsTokens(command: string)
    ensures Fields(Normalize(command)) == Fields(command)
    ensures Normalize(command) == "" <==> Fields(command) == []
  {
    FieldsOfTrimSpace(command);
    FieldsOfJoin(Fields(command));
  }

  /** A watch or trace whose observation is bounded: some -n limit, and two arguments free of wildcards. */
  predicate BoundedTokens(parts: seq<string>) {
    && (exists i: nat | i < |parts| :: LimitsAt(parts, i))
    && |parts| >= 3 && '*' !in parts[1] && '*' !in parts[2]
  }

  /** The risk of a command, read off its token list. */
  function RiskOf(parts: seq<string>): Risk {
    if parts == [] then High
    else
      var name := ToLower(parts[0]);
      if IsLowRisk(name) then Low
      else if IsHighRisk(name) || (IsWatcher(name) && !BoundedTokens(parts)) then High
      else Medium
  }

  lemma LowRiskNamesAreSafe(name: string)
    ensures IsLowRisk(name) ==> !IsHighRisk(name) && !IsWatcher(name)
  {
  }

  /** The whole decision is a function of the token list: the risk is RiskOf, exactly the non-low risks need
      confirmation, and a command runs unattended exactly when it is low-risk and the switch is on. */
  lemma DecisionFollowsTokens(p: Policy, command: string)
    ensures var d := Classify(p, command);
            && d.risk == RiskOf(Fields(command))
            && (d.requiresConfirmation <==> d.risk != Low)
            && (d.autoExecutable <==> d.risk == Low && p.autoExecLowRisk)
            && d.maxOutputBytes == p.maxOutputBytes
  {
    NormalizeKeepsTokens(command);
    NormalizedRisk(p, Normalize(command));
    FlagsFollowRisk(p, Normalize(command));
  }

  lemma NormalizedRisk(p: Policy, normalized: string)
    requires normalized == "" <==> Fields(normalized) == []
    ensures ClassifyNormalized(p, normalized).risk == RiskOf(Fields(normalized))
  {
    LowRiskNamesAreSafe(FirstToken(normalized));
  }

  lemma FlagsFollowRisk(p: Policy, normalized: string)
    ensures var d := ClassifyNormalized(p, normalized);
            && (d.requiresConfirmation <==> d.risk != Low)
            && (d.autoExecutable <==> d.risk == Low && p.autoExecLowRisk)
            && d.maxOutputBytes == p.maxOutputBytes
  {
  }

  lemma Tables(name: string)
    ensures IsLowRisk(name) <==> name in {"version", "help", "sysprop", "sysenv", "jvm", "dashboard", "thread", "memory", "classloader"}
    ensures IsHighRisk(name) <==> name in {"ognl", "vmtool", "redefine", "retransform", "dump", "heapdump"}
    ensures IsWatcher(name) <==> name in {"watch", "trace"}
  {
  }

  lemma TablesAreDisjoint(name: string)
    ensures !(IsLowRisk(name) && IsHighRisk(name)) && !(IsLowRisk(name) && IsWatcher(name)) && !(IsHighRisk(name) && IsWatcher(name))
  {
    LowRiskNamesAreSafe(name);
    WatcherIsNotDangerous(name);
  }

  /** What a decision says of the table its first word is in. */
  predicate Fits(d: Decision, low: bool, dangerous: bool, watcher: bool) {
    && (d.risk == Low <==> low) && (d.reason == ReadOnlyCommand <==> low)
    && (d.reason == DangerousCommand <==> dangerous) && (dangerous ==> d.risk == High)
    && (d.reason == BoundedWatch <==> watcher && d.risk == Medium)
    && (d.reason == UnboundedWatch <==> watcher && d.risk == High)
    && (d.reason == NotWhitelisted <==> !low && !dangerous && !watcher) && (d.reason == NotWhitelisted ==> d.risk == Medium)
  }

  /** The whole policy by the first word, in any case: what may run unattended starts with one of nine words, six others
      are always dangerous, watch and trace are medium or high risk, everything else is medium, and nothing at all is high. */
  lemma DecisionByFirstWord(p: Policy, command: string)
    ensures var d, tokens := Classify(p, command), Fields(command);
            && (tokens == [] <==> d.reason == EmptyCommand) && (tokens == [] ==> d.risk == High)
            && (tokens != [] ==>
                  var name := ToLower(tokens[0]);
                  Fits(d, name in {"version", "help", "sysprop", "sysenv", "jvm", "dashboard", "thread", "memory", "classloader"},
                       name in {"ognl", "vmtool", "redefine", "retransform", "dump", "heapdump"}, name in {"watch", "trace"}))
  {
    NormalizeKeepsTokens(command);
    var name := FirstToken(Normalize(command));
    Tables(name);
    ByTables(p, Normalize(command));
  }

  lemma ByTables(p: Policy, normalized: string)
    ensures normalized == "" <==> ClassifyNormalized(p, normalized).reason == EmptyCommand
    ensures normalized == "" ==> ClassifyNormalized(p, normalized).risk == High
    ensures var name := FirstToken(normalized);
            normalized != "" ==> Fits(ClassifyNormalized(p, normalized), IsLowRisk(name), IsHighRisk(name), IsWatcher(name))
  {
    TablesAreDisjoint(FirstToken(normalized));
  }

  /** Equal up to the case of ASCII letters. */
  predicate SameButCase(a: string, b: string) {
    && |a| == |b|
    && forall i | 0 <= i < |a| ::
         a[i] == b[i] || ('A' <= a[i] <= 'Z' && b[i] as int == a[i] as int + 32) || ('A' <= b[i] <= 'Z' && a[i] as int == b[i] as int + 32)
  }

  lemma LowerIgnoresCase(a: string, b: string)
    requires SameButCase(a, b)
    ensures ToLower(a) == ToLower(b)
  {
    forall i | 0 <= i < |a| ensures ToLower(a)[i] == ToLower(b)[i] {
      if a[i] != b[i] {
        var low := if 'A' <= a[i] <= 'Z' then b[i] else a[i];
        assert LowerChar(a[i]) == low == LowerChar(b[i]);
      }
    }
  }

  /** Writing the command word in other letters never changes the decision. */
  lemma CaseIsIrrelevant(p: Policy, a: string, b: string)
    requires Fields(a) != [] && Fields(b) != []
    requires SameButCase(Fields(a)[0], Fields(b)[0]) && Fields(a)[1..] == Fields(b)[1..]
    ensures Classify(p, a) == Classify(p, b)
  {
    NormalizeKeepsTokens(a);
    NormalizeKeepsTokens(b);
    LowerIgnoresCase(Fields(a)[0], Fields(b)[0]);
    if IsWatcher(FirstToken(Normalize(a))) {
      SameGuard(Fields(a), Fields(b));
    }
    SameDecision(p, Normalize(a), Normalize(b));
  }

  lemma SameDecision(p: Policy, a: string, b: string)
    requires a != "" && b != "" && FirstToken(a) == FirstToken(b)
    requires IsWatcher(FirstToken(a)) ==> (BoundedTokens(Fields(a)) <==> BoundedTokens(Fields(b)))
    ensures ClassifyNormalized(p, a) == ClassifyNormalized(p, b)
  {
  }

  lemma SameGuard(a: seq<string>, b: seq<string>)
    requires a != [] && b != [] && a[1..] == b[1..] && IsWatcher(ToLower(a[0])) && IsWatcher(ToLower(b[0]))
    ensures BoundedTokens(a) <==> BoundedTokens(b)
  {
    assert a == [a[0]] + a[1..] && b == [b[0]] + b[1..];
    forall i: nat | i < |a| ensures LimitsAt(a, i) <==> LimitsAt(b, i) {
      if i == 0 {
        NoLimitInFront(a);
        NoLimitInFront(b);
      } else {
        assert a[i] == b[i];
      }
    }
  }

  lemma NoLimitInFront(parts: seq<string>)
    requires parts != [] && IsWatcher(ToLower(parts[0]))
    ensures !LimitsAt(parts, 0)
  {
    assert ToLower(parts[0])[0] in "wt" && LowerChar('-') == '-';
  }

  /** Re-spacing a command never changes the decision. */
  lemma SpacingIsIrrelevant(p: Policy, a: string, b: string)
    requires Fields(a) == Fields(b)
    ensures Classify(p, a) == Classify(p, b)
  {
    FieldsOfTrimSpace(a);
    FieldsOfTrimSpace(b);
    assert Normalize(a) == Normalize(b);
  }

  /** In particular the decision on the normalized text is the decision on the text itself. */
  lemma NormalizingIsIrrelevant(p: Policy, command: string, before: string, after: string)
    requires AllSpace(before) && AllSpace(after)
    ensures Classify(p, Normalize(command)) == Classify(p, command) == Classify(p, before + command + after)
  {
    NormalizeKeepsTokens(command);
    FieldsIgnoresTrailingSpace(before + command, after);
    FieldsIgnoresLeadingSpace(before, command);
    SpacingIsIrrelevant(p, Normalize(command), command);
    SpacingIsIrrelevant(p, before + command + after, command);
  }

  // ---------------------------------------------------------------- does a watch name its target?

  predicate IsOption(word: string) {
    HasPrefix(word, "-")
  }

  predicate IsNumeral(word: string) {
    word != "" && AllDigits(word)
  }

  /** The words after the command that are neither options nor the word that a bare -n takes. */
  function Operands(words: seq<string>): seq<string> {
    if words == [] then []
    else if words[0] == "-n" then (if |words| == 1 then [] else Operands(words[2..]))
    else (if IsOption(words[0]) then [] else [words[0]]) + Operands(words[1..])
  }

  /** Some -n is followed by a numeral, or has one glued to it. */
  predicate NumericLimit(words: seq<string>) {
    && words != []
    && if words[0] == "-n" then |words| >= 2 && (IsNumeral(words[1]) || NumericLimit(words[2..]))
       else (HasPrefix(words[0], "-n") && IsNumeral(words[0][2..])) || NumericLimit(words[1..])
  }

  /** A class and a method, free of wildcards. */
  predicate PlainTarget(operands: seq<string>) {
    |operands| >= 2 && '*' !in operands[0] && '*' !in operands[1]
  }

  /** What the refusal text asks for: a class, a method and a limit. */
  predicate Intended(parts: seq<string>)
    requires parts != []
  {
    NumericLimit(parts[1..]) && PlainTarget(Operands(parts[1..]))
  }

  /** What the guard looks for: some word that starts like a limit and has something behind it, and no `*` in the two
      words after the command. */
  predicate LooksBounded(parts: seq<string>) {
    && (exists i: nat :: i < |parts| && HasPrefix(parts[i], "-n") && (parts[i] == "-n" ==> i + 1 < |parts|))
    && |parts| >= 3 && '*' !in parts[1] && '*' !in parts[2]
  }

  /** The -n that was found limits nothing, as in `-name` or `-n x`. */
  predicate LimitIsNoNumber(parts: seq<string>) {
    LooksBounded(parts) && !NumericLimit(parts[1..])
  }

  /** An option stands where the class and the method are looked for, and the target behind it is missing or has a
      wildcard. */
  predicate TargetIsHidden(parts: seq<string>) {
    LooksBounded(parts) && (IsOption(parts[1]) || IsOption(parts[2])) && !PlainTarget(Operands(parts[1..]))
  }

  /** All is given, but an option, or the word of a bare -n, has a `*` where the class and the method are looked for. */
  predicate StarIsNoWildcard(parts: seq<string>) {
    && |parts| >= 3 && Intended(parts)
    && ((IsOption(parts[1]) && '*' in parts[1]) || ((IsOption(parts[2]) || parts[1] == "-n") && '*' in parts[2]))
  }

  /** For every watch and trace command: it is medium risk exactly when it is bounded, and high risk otherwise. Against
      what the refusal text asks for, it passes wrongly in exactly two ways and is refused wrongly in exactly one. */
  lemma WatchVerdict(p: Policy, command: string)
    requires Fields(command) != [] && IsWatcher(ToLower(Fields(command)[0]))
    ensures var parts, risk := Fields(command), Classify(p, command).risk;
            && risk == (if LooksBounded(parts) then Medium else High)
            && (risk == Medium && !Intended(parts) <==> LimitIsNoNumber(parts) || TargetIsHidden(parts))
            && (risk == High && Intended(parts) <==> StarIsNoWildcard(parts))
  {
    DecisionFollowsTokens(p, command);
    LowRiskNamesAreSafe(ToLower(Fields(command)[0]));
    WatcherIsNotDangerous(ToLower(Fields(command)[0]));
    VerdictOfTokens(Fields(command));
    BoundedMeansLooksBounded(Fields(command));
  }

  /** The same for every token list. */
  lemma VerdictOfTokens(parts: seq<string>)
    requires parts != []
    ensures BoundedTokens(parts) && !Intended(parts) <==> LimitIsNoNumber(parts) || TargetIsHidden(parts)
    ensures !BoundedTokens(parts) && Intended(parts) <==> StarIsNoWildcard(parts)
  {
    BoundedMeansLooksBounded(parts);
    if Intended(parts) {
      NumericLimitIsFound(parts, 1);
      FewerOperands(parts[1..]);
    }
    if |parts| >= 3 {
      FirstOperands(parts);
    }
  }

  lemma BoundedMeansLooksBounded(parts: seq<string>)
    ensures BoundedTokens(parts) <==> LooksBounded(parts)
  {
    forall i: nat | i < |parts|
      ensures LimitsAt(parts, i) <==> HasPrefix(parts[i], "-n") && (parts[i] == "-n" ==> i + 1 < |parts|)
    {
      assert HasPrefix(parts[i], "-n") && |parts[i]| == 2 ==> parts[i] == "-n";
    }
  }

  lemma {:induction false} NumericLimitIsFound(parts: seq<string>, k: nat)
    requires k <= |parts| && NumericLimit(parts[k..])
    ensures exists i: nat | i < |parts| :: LimitsAt(parts, i)
    decreases |parts| - k
  {
    assert parts[k..][0] == parts[k];
    if parts[k] == "-n" {
      assert LimitsAt(parts, k);
    } else if HasPrefix(parts[k], "-n") && IsNumeral(parts[k][2..]) {
      assert LimitsAt(parts, k);
    } else {
      assert parts[k..][1..] == parts[k + 1..];
      NumericLimitIsFound(parts, k + 1);
    }
  }

  lemma {:induction false} FewerOperands(words: seq<string>)
    ensures |Operands(words)| <= |words|
  {
    if |words| >= 2 && words[0] == "-n" {
      FewerOperands(words[2..]);
    } else if words != [] {
      FewerOperands(words[1..]);
    }
  }

  /** Where no option comes before them, the two words after the command are the first two operands. */
  lemma FirstOperands(parts: seq<string>)
    requires |parts| >= 3
    ensures !IsOption(parts[1]) ==> |Operands(parts[1..])| >= 1 && Operands(parts[1..])[0] == parts[1]
    ensures !IsOption(parts[1]) && !IsOption(parts[2]) ==> |Operands(parts[1..])| >= 2 && Operands(parts[1..])[1] == parts[2]
    ensures IsOption(parts[1]) && parts[1] != "-n" && !IsOption(parts[2]) ==>
      |Operands(parts[1..])| >= 1 && Operands(parts[1..])[0] == parts[2]
  {
    var words := parts[1..];
    assert words[0] == parts[1] && words[1..][0] == parts[2];
    assert IsOption("-n");
  }

  predicate PlainWord(word: string) {
    !IsOption(word) && '*' !in word
  }

  lemma NextWord(word: string, rest: seq<string>)
    requires word != "-n"
    ensures Operands([word] + rest) == (if IsOption(word) then [] else [word]) + Operands(rest)
    ensures NumericLimit([word] + rest) <==> (HasPrefix(word, "-n") && IsNumeral(word[2..])) || NumericLimit(rest)
  {
    assert ([word] + rest)[1..] == rest;
  }

  lemma NextLimit(limit: string, rest: seq<string>)
    ensures Operands(["-n", limit] + rest) == Operands(rest)
    ensures NumericLimit(["-n", limit] + rest) <==> IsNumeral(limit) || NumericLimit(rest)
  {
    assert (["-n", limit] + rest)[2..] == rest;
  }

  lemma TargetFirst(class_: string, method_: string, rest: seq<string>)
    requires !IsOption(class_) && !IsOption(method_)
    ensures Operands([class_] + ([method_] + rest)) == [class_, method_] + Operands(rest)
    ensures NumericLimit([class_] + ([method_] + rest)) <==> NumericLimit(rest)
  {
    assert IsOption("-n") && !HasPrefix(class_, "-n") && !HasPrefix(method_, "-n");
    NextWord(class_, [method_] + rest);
    NextWord(method_, rest);
  }

  /** Each way occurs. Here for `watch com.Foo bar -name`: any flag that starts like a limit passes for one. */
  lemma FlagPassesForALimit(name: string, class_: string, method_: string, flag: string)
    requires PlainWord(class_) && PlainWord(method_)
    requires HasPrefix(flag, "-n") && |flag| > 2 && !IsNumeral(flag[2..])
    ensures LimitIsNoNumber([name, class_, method_, flag])
  {
    var parts := [name, class_, method_, flag];
    assert LimitsAt(parts, 3);
    assert parts[1..] == [class_] + ([method_] + ([flag] + []));
    TargetFirst(class_, method_, [flag] + []);
    NextWord(flag, []);
  }

  /** Here for `watch -n 5 * *`. */
  lemma WildcardHidesBehindALimit(name: string, limit: string, class_: string, method_: string)
    requires '*' !in limit && !IsOption(class_) && !IsOption(method_) && ('*' in class_ || '*' in method_)
    ensures TargetIsHidden([name, "-n", limit, class_, method_])
  {
    var parts := [name, "-n", limit, class_, method_];
    assert LimitsAt(parts, 1) && IsOption("-n");
    assert parts[1..] == ["-n", limit] + ([class_] + ([method_] + []));
    NextLimit(limit, [class_] + ([method_] + []));
    TargetFirst(class_, method_, []);
  }

  /** Here for `watch -x* com.Foo bar -n 5`. */
  lemma StarredFlagIsRefused(name: string, flag: string, class_: string, method_: string, limit: string)
    requires IsOption(flag) && !HasPrefix(flag, "-n") && '*' in flag && PlainWord(class_) && PlainWord(method_) && IsNumeral(limit)
    ensures StarIsNoWildcard([name, flag, class_, method_, "-n", limit])
  {
    var parts := [name, flag, class_, method_, "-n", limit];
    var limits := ["-n", limit] + [];
    assert parts[1..] == [flag] + ([class_] + ([method_] + limits));
    NextWord(flag, [class_] + ([method_] + limits));
    TargetFirst(class_, method_, limits);
    NextLimit(limit, []);
    assert Intended(parts);
  }

  lemma WatcherIsNotDangerous(name: string)
    ensures IsWatcher(name) ==> !IsHighRisk(name)
  {
  }

  /** In particular behind a limit written first the target is not looked at: the command is medium risk, and passes
      wrongly unless the limit is a number and the words behind it name a plain target. */
  lemma LeadingLimitHidesTheTarget(p: Policy, command: string)
    requires var parts := Fields(command);
             |parts| >= 3 && IsWatcher(ToLower(parts[0])) && parts[1] == "-n" && '*' !in parts[2]
    ensures var parts := Fields(command);
            && Classify(p, command).risk == Medium
            && (Intended(parts) <==> (IsNumeral(parts[2]) || NumericLimit(parts[3..])) && PlainTarget(Operands(parts[3..])))
  {
    var parts := Fields(command);
    assert LimitsAt(parts, 1);
    WatchVerdict(p, command);
    assert parts[1..][0] == "-n" && parts[1..][1] == parts[2] && parts[1..][2..] == parts[3..];
  }

  /** So `watch -n 5`, without any target, is medium risk. */
  lemma WatchNeedsNoClass(p: Policy)
    ensures Classify(p, "watch -n 5").risk == Medium
  {
    var parts := ["watch", "-n", "5"];
    JoinOfThree("watch", "-n", "5");
    assert "watch" + " " + "-n" + " " + "5" == "watch -n 5";
    FieldsOfJoin(parts);
    LeadingLimitIsMedium(parts);
    DecisionFollowsTokens(p, "watch -n 5");
  }

  lemma LeadingLimitIsMedium(parts: seq<string>)
    requires |parts| == 3 && parts[0] == "watch" && parts[1] == "-n" && parts[2] == "5"
    ensures RiskOf(parts) == Medium
  {
    assert LimitsAt(parts, 1);
    assert ToLower(parts[0]) == "watch";
  }

  lemma JoinOfThree(a: string, b: string, c: string)
    ensures Join([a, b, c], " ") == a + " " + b + " " + c
  {
    assert [a, b, c][1..] == [b, c] && [b, c][1..] == [c];
    assert Join([b, c], " ") == b + " " + c;
  }
}
