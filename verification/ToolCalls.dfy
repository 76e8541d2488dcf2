// Reassembling streamed tool calls: deltas of several calls arrive interleaved and in pieces, each tagged with
// the index of its call.

module ToolCalls {

  datatype ToolCall = ToolCall(index: int, id: string, name: string, arguments: string)

  /** One delta applied to the map of calls under construction. */
  function Merge(calls: map<int, ToolCall>, f: ToolCall): map<int, ToolCall> {
    if f.index !in calls then calls[f.index := f]
    else
      var c := calls[f.index];
      calls[f.index := ToolCall(c.index, if f.id != "" then f.id else c.id, c.name + f.name, c.arguments + f.arguments)]
  }

  function MergeAll(calls: map<int, ToolCall>, fragments: seq<ToolCall>): map<int, ToolCall>
    decreases |fragments|
  {
    if fragments == [] then calls else MergeAll(Merge(calls, fragments[0]), fragments[1..])
  }

  // ---------------------------------------------------------------- what assembly means

  /** The fragments of one call. */
  function Only(fragments: seq<ToolCall>, index: int): seq<ToolCall> {
    if fragments == [] then []
    else (if fragments[0].index == index then [fragments[0]] else []) + Only(fragments[1..], index)
  }

  function Names(fragments: seq<ToolCall>): string {
    if fragments == [] then "" else fragments[0].name + Names(fragments[1..])
  }

  function Arguments(fragments: seq<ToolCall>): string {
    if fragments == [] then "" else fragments[0].arguments + Arguments(fragments[1..])
  }

  /** The last identifier given, "" if none was. */
  function LastId(fragments: seq<ToolCall>): string {
    if fragments == [] then ""
    else var later := LastId(fragments[1..]); if later != "" then later else fragments[0].id
  }

  /** A call as its own fragments define it. */
  function Whole(index: int, own: seq<ToolCall>): ToolCall {
    ToolCall(index, LastId(own), Names(own), Arguments(own))
  }

  /** A call under construction, continued by its remaining fragments. */
  function Continued(c: ToolCall, own: seq<ToolCall>): ToolCall {
    ToolCall(c.index, if LastId(own) != "" then LastId(own) else c.id, c.name + Names(own), c.arguments + Arguments(own))
  }

  lemma {:induction false} MergeAllContinues(calls: map<int, ToolCall>, fragments: seq<ToolCall>, index: int)
    requires forall k | k in calls :: calls[k].index == k
    ensures var m := MergeAll(calls, fragments);
            var own := Only(fragments, index);
            && (index in m <==> index in calls || own != [])
            && (index in calls ==> m[index] == Continued(calls[index], own))
            && (index !in calls && own != [] ==> m[index] == Whole(index, own))
    decreases |fragments|
  {
    if fragments != [] {
      var f := fragments[0];
      var rest := Only(fragments[1..], index);
      MergeAllContinues(Merge(calls, f), fragments[1..], index);
      if f.index == index {
        var own := Only(fragments, index);
        assert own == [f] + rest && own[1..] == rest && own[0] == f;
        if index in calls {
          assert calls[index].name + f.name + Names(rest) == calls[index].name + (f.name + Names(rest));
          assert calls[index].arguments + f.arguments + Arguments(rest) == calls[index].arguments + (f.arguments + Arguments(rest));
        }
      } else {
        assert Only(fragments, index) == rest;
      }
    }
  }

  /** Assembly depends only on each call's own fragments, whatever is interleaved with them: identifier, name and
      arguments are the last non-empty and the concatenations over that call's fragments, and there is a call for
      exactly the indices that occur. */
  lemma AssemblyIsPerIndex(fragments: seq<ToolCall>, index: int)
    ensures var m := MergeAll(map[], fragments);
            && (index in m <==> exists i :: 0 <= i < |fragments| && fragments[i].index == index)
            && (index in m ==> m[index] == Whole(index, Only(fragments, index)))
  {
    MergeAllContinues(map[], fragments, index);
    OnlyEmpty(fragments, index);
  }

  lemma {:induction false} OnlyEmpty(fragments: seq<ToolCall>, index: int)
    ensures Only(fragments, index) != [] <==> exists i :: 0 <= i < |fragments| && fragments[i].index == index
  {
    if fragments != [] {
      OnlyEmpty(fragments[1..], index);
      if i :| 0 <= i < |fragments| && fragments[i].index == index {
        if i > 0 {
          assert fragments[1..][i - 1].index == index;
        }
      }
    }
  }

  /** Two streams in which every call has the same fragments in the same order assemble to the same calls. */
  lemma InterleavingIsIrrelevant(a: seq<ToolCall>, b: seq<ToolCall>)
    requires forall index :: Only(a, index) == Only(b, index)
    ensures MergeAll(map[], a) == MergeAll(map[], b)
  {
    forall index
      ensures index in MergeAll(map[], a) <==> index in MergeAll(map[], b)
      ensures index in MergeAll(map[], a) ==> MergeAll(map[], a)[index] == MergeAll(map[], b)[index]
    {
      MergeAllContinues(map[], a, index);
      MergeAllContinues(map[], b, index);
    }
  }

  lemma {:induction false} MergeAllConcat(calls: map<int, ToolCall>, a: seq<ToolCall>, b: seq<ToolCall>)
    ensures MergeAll(calls, a + b) == MergeAll(MergeAll(calls, a), b)
    decreases |a|
  {
    if a == [] {
      assert a + b == b;
    } else {
      assert (a + b)[1..] == a[1..] + b;
      MergeAllConcat(Merge(calls, a[0]), a[1..], b);
    }
  }

  /** A delta may be delivered in two pieces, in whichever piece its identifier comes. */
  lemma SplittingIsIrrelevant(before: seq<ToolCall>, f: ToolCall, f1: ToolCall, f2: ToolCall, after: seq<ToolCall>)
    requires f1.index == f.index == f2.index
    requires f1.name + f2.name == f.name && f1.arguments + f2.arguments == f.arguments
    requires f.id == if f2.id != "" then f2.id else f1.id
    ensures MergeAll(map[], before + [f1, f2] + after) == MergeAll(map[], before + [f] + after)
  {
    var m := MergeAll(map[], before);
    MergeAllConcat(map[], before + [f1, f2], after);
    MergeAllConcat(map[], before, [f1, f2]);
    MergeAllConcat(map[], before + [f], after);
    MergeAllConcat(map[], before, [f]);
    assert [f1, f2][1..] == [f2];
    assert MergeAll(Merge(m, f1), [f2]) == Merge(Merge(m, f1), f2);
    if f.index in m {
      var c := m[f.index];
      assert c.name + f1.name + f2.name == c.name + f.name;
      assert c.arguments + f1.arguments + f2.arguments == c.arguments + f.arguments;
    }
    assert Merge(Merge(m, f1), f2) == Merge(m, f);
  }

  // ---------------------------------------------------------------- emitting the assembled calls

  /** The loop that lists the calls for i = 0 .. len-1, skipping absent indices. */
  function EmitFrom(calls: map<int, ToolCall>, i: nat): seq<ToolCall>
    decreases |calls| - i
  {
    if i >= |calls| then []
    else (if i in calls then [calls[i]] else []) + EmitFrom(calls, i + 1)
  }

  method Emit(calls: map<int, ToolCall>) returns (r: seq<ToolCall>)
    ensures r == EmitFrom(calls, 0)
  {
    r := [];
    for i := 0 to |calls|
      invariant r + EmitFrom(calls, i) == EmitFrom(calls, 0)
    {
      if i in calls {
        r := r + [calls[i]];
      }
    }
  }

  /** The set {0, .., n-1}. */
  function UpTo(n: nat): (s: set<int>)
    ensures forall k :: k in s <==> 0 <= k < n
    ensures |s| == n
  {
    if n == 0 then {} else UpTo(n - 1) + {n - 1}
  }

  /** The keys among i .. |calls|-1. */
  function KeysFrom(calls: map<int, ToolCall>, i: nat): set<int> {
    set k | k in calls && i <= k < |calls|
  }

  lemma {:induction false} EmitFromCounts(calls: map<int, ToolCall>, i: nat)
    ensures |EmitFrom(calls, i)| == |KeysFrom(calls, i)|
    decreases |calls| - i
  {
    if i >= |calls| {
      assert KeysFrom(calls, i) == {};
    } else {
      EmitFromCounts(calls, i + 1);
      if i in calls {
        assert KeysFrom(calls, i) == KeysFrom(calls, i + 1) + {i};
      } else {
        assert KeysFrom(calls, i) == KeysFrom(calls, i + 1);
      }
    }
  }

  lemma {:induction false} EmitDense(calls: map<int, ToolCall>, i: nat, k: nat)
    requires calls.Keys == UpTo(|calls|) && i <= k < |calls|
    ensures |EmitFrom(calls, i)| == |calls| - i && EmitFrom(calls, i)[k - i] == calls[k]
    decreases |calls| - i
  {
    assert i in calls.Keys;
    if i + 1 < |calls| {
      EmitDense(calls, i + 1, if i == k then k + 1 else k);
    }
  }

  /** No call is lost exactly when the indices are 0 .. n-1; the list then holds them in index order. */
  lemma NoCallLost(calls: map<int, ToolCall>)
    ensures |EmitFrom(calls, 0)| == |calls| <==> calls.Keys == UpTo(|calls|)
    ensures calls.Keys == UpTo(|calls|) ==> forall k: nat | k < |calls| :: k < |EmitFrom(calls, 0)| && EmitFrom(calls, 0)[k] == calls[k]
  {
    EmitFromCounts(calls, 0);
    var kept := KeysFrom(calls, 0);
    assert |calls.Keys| == |calls|;
    assert kept <= calls.Keys && kept <= UpTo(|calls|);
    if |kept| == |calls| {
      SameSizeSubset(kept, calls.Keys);
      SameSizeSubset(kept, UpTo(|calls|));
    }
    if calls.Keys == UpTo(|calls|) {
      assert kept == calls.Keys;
      forall k: nat | k < |calls| ensures k < |EmitFrom(calls, 0)| && EmitFrom(calls, 0)[k] == calls[k] {
        EmitDense(calls, 0, k);
      }
    }
  }

  lemma SameSizeSubset(a: set<int>, b: set<int>)
    requires a <= b && |a| == |b|
    ensures a == b
  {
    assert |b - a| == |b| - |a|;
  }

  /** Whatever the indices are, the list holds exactly the calls whose index is below their number, each once, in index order. */
  lemma EmittedCalls(calls: map<int, ToolCall>) returns (at: seq<int>)
    ensures |at| == |EmitFrom(calls, 0)|
    ensures forall j | 0 <= j < |at| :: at[j] in calls && EmitFrom(calls, 0)[j] == calls[at[j]]
    ensures forall i, j | 0 <= i < j < |at| :: at[i] < at[j]
    ensures forall k :: k in at <==> k in calls && 0 <= k < |calls|
  {
    at := EmittedFrom(calls, 0);
  }

  /** `list` holds the calls with these indices, which are those from i on below the number of calls. */
  ghost predicate Emitted(calls: map<int, ToolCall>, i: nat, at: seq<int>, list: seq<ToolCall>) {
    && |at| == |list|
    && (forall j | 0 <= j < |at| :: at[j] in calls && list[j] == calls[at[j]])
    && (forall j, l | 0 <= j < l < |at| :: at[j] < at[l])
    && (forall k :: k in at <==> k in calls && i <= k < |calls|)
  }

  lemma {:induction false} EmittedFrom(calls: map<int, ToolCall>, i: nat) returns (at: seq<int>)
    ensures Emitted(calls, i, at, EmitFrom(calls, i))
    decreases |calls| - i
  {
    if i >= |calls| {
      return [];
    }
    var later := EmittedFrom(calls, i + 1);
    var list := EmitFrom(calls, i + 1);
    if i in calls {
      EmittedOneMore(calls, i, later, list);
      return [i] + later;
    }
    assert [] + list == list;
    EmittedSkips(calls, i, later, list);
    return later;
  }

  lemma EmittedSkips(calls: map<int, ToolCall>, i: nat, later: seq<int>, list: seq<ToolCall>)
    requires i !in calls && Emitted(calls, i + 1, later, list)
    ensures Emitted(calls, i, later, list)
  {
  }

  lemma EmittedOneMore(calls: map<int, ToolCall>, i: nat, later: seq<int>, list: seq<ToolCall>)
    requires i in calls && i < |calls| && Emitted(calls, i + 1, later, list)
    ensures Emitted(calls, i, [i] + later, [calls[i]] + list)
  {
    assert forall j | 0 <= j < |later| :: later[j] in later;
  }

  /** A provider that numbers its only call 1 instead of 0 has it dropped. */
  lemma OneBasedCallIsLost(f: ToolCall)
    requires f.index == 1
    ensures MergeAll(map[], [f]) == map[1 := f] && EmitFrom(map[1 := f], 0) == []
  {
    assert [f][1..] == [];
    assert EmitFrom(map[1 := f], 1) == [];
  }
}
