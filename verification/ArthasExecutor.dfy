// Executing an Arthas command in a pod, as far as the session relies on it.

module ArthasExecutor {
  import opened Wrappers
  import opened ArthasPolicy
  import opened ArthasSession

  const TRUNCATED := "\n... output truncated ..."
  const STDERR := "\n[stderr]\n"

  /** What the cluster does with one exec request: the connection fails, or output comes back, possibly with an error. */
  datatype Attempt = NoConnection(message: string) | Streamed(stdout: string, stderr: string, failure: Option<string>)

  method Exec(a: Attempt) returns (o: Outcome)
    ensures Kept(o) && o.error == (if a.NoConnection? then Some(a.message) else a.failure)
    ensures o.result == if a.NoConnection? then None else Some(ExecResult(a.stdout, a.stderr))
  {
    if a.NoConnection? {
      return Outcome(None, Some(a.message));
    }
    var result := ExecResult(a.stdout, a.stderr);
    if a.failure.Some? {
      return Outcome(Some(result), a.failure);
    }
    return Outcome(Some(result), None);
  }

  function TrimNewlines(s: string): string {
    if s != "" && s[|s| - 1] == '\n' then TrimNewlines(s[..|s| - 1]) else s
  }

  function TrimBytes(value: string, maxBytes: int): string {
    if maxBytes <= 0 || |value| <= maxBytes then value else value[..maxBytes] + TRUNCATED
  }

  predicate AllNewlines(s: string) {
    forall i | 0 <= i < |s| :: s[i] == '\n'
  }

  /** `kept` is the text without the newlines at its end. */
  predicate CutsNewlines(s: string, kept: string) {
    kept <= s && AllNewlines(s[|kept|..]) && (kept != "" ==> kept[|kept| - 1] != '\n')
  }

  lemma {:induction false} TrimNewlinesCuts(s: string)
    ensures CutsNewlines(s, TrimNewlines(s))
  {
    if s != "" && s[|s| - 1] == '\n' {
      var cut := s[..|s| - 1];
      TrimNewlinesCuts(cut);
      var kept := TrimNewlines(cut);
      assert s[|kept|..] == cut[|kept|..] + [s[|s| - 1]];
    }
  }

  /** What is shown of an output: all of it while it fits; else the first `limit` bytes of its text and a notice. The text
      is stdout without the newlines at its end, and, where there is any, stderr behind a heading. */
  ghost predicate IsShown(stdout: string, stderr: string, limit: int, shown: ExecResult) {
    if |stdout| + |stderr| <= limit then shown == ExecResult(stdout, stderr)
    else
      && shown.stderr == ""
      && exists kept :: CutsNewlines(stdout, kept) && IsCut(kept + (if stderr == "" then "" else "\n[stderr]\n" + stderr), limit, shown.stdout)
  }

  ghost predicate IsCut(text: string, limit: int, shown: string) {
    if limit <= 0 || |text| <= limit then shown == text
    else |shown| > limit && shown[..limit] == text[..limit] && shown[limit..] == "\n... output truncated ..."
  }

  /** A result comes back unless the connection failed, with what is shown of the output; the error is that of the attempt.
      Lengths are in bytes. */
  method ExecuteConfirmed(decision: Decision, a: Attempt) returns (o: Outcome)
    ensures Kept(o)
    ensures o.error == if a.NoConnection? then Some(a.message) else a.failure
    ensures o.result.Some? <==> a.Streamed?
    ensures a.Streamed? ==> IsShown(a.stdout, a.stderr, decision.maxOutputBytes, o.result.value)
  {
    o := Exec(a);
    if o.result.Some? {
      var result := o.result.value;
      if |result.stdout| + |result.stderr| > decision.maxOutputBytes {
        var combined := TrimNewlines(result.stdout);
        TrimNewlinesCuts(result.stdout);
        ghost var kept := combined;
        if result.stderr != "" {
          combined := combined + STDERR + result.stderr;
          assert combined == kept + (STDERR + result.stderr);
        } else {
          assert combined == kept + "";
        }
        var shown := TrimBytes(combined, decision.maxOutputBytes);
        assert IsCut(combined, decision.maxOutputBytes, shown);
        o := o.(result := Some(ExecResult(shown, "")));
      }
    }
  }

  /** So what a client is shown never exceeds the limit by more than the notice. */
  lemma ShownIsBounded(stdout: string, stderr: string, limit: int, shown: ExecResult)
    requires IsShown(stdout, stderr, limit, shown) && limit > 0
    ensures |shown.stdout| + |shown.stderr| <= limit + |"\n... output truncated ..."|
  {
  }

  /** Nothing is attempted unless the policy lets the command run by itself. */
  method Execute(decision: Decision, a: Attempt) returns (attempted: bool, o: Outcome)
    ensures attempted <==> decision.autoExecutable
    ensures attempted ==> Kept(o) && (o.result.Some? <==> a.Streamed?) && o.error == (if a.NoConnection? then Some(a.message) else a.failure)
    ensures attempted && a.Streamed? ==> IsShown(a.stdout, a.stderr, decision.maxOutputBytes, o.result.value)
    ensures !attempted ==> o == Outcome(None, None)
  {
    if !decision.autoExecutable {
      return false, Outcome(None, None);
    }
    o := ExecuteConfirmed(decision, a);
    return true, o;
  }
}
