/**
 * Grouping a message list so that a tool call and its results stay together,
 * deciding whether such a group is complete, and what follows for replacing
 * whole groups of a history.
 */
module ContextCompaction {
  import opened Text
  import opened Collections

  /** A message field: absent, text, or a value of another type. */
  datatype Value = Absent | Str(text: string) | Other

  /** The tool_calls field: absent, of another type, or a list, each call given by its id (absent when the
      call is no mapping). */
  datatype Calls = NoCalls | NotAList | Listed(ids: seq<Value>)

  datatype Message = Message(role: Value, calls: Calls, callId: Value)

  predicate IsTool(m: Message) {
    m.role == Str("tool")
  }

  predicate HasCalls(m: Message) {
    m.calls.Listed? && m.calls.ids != []
  }

  function UpTo(from: nat, to: nat): seq<nat>
    requires from <= to
  {
    seq(to - from, i requires 0 <= i => from + i)
  }

  // Grouping

  /** Where the run of tool messages that starts at `i` ends. */
  function ToolEnd(m: seq<Message>, i: nat): (j: nat)
    requires i <= |m|
    ensures i <= j <= |m|
    ensures j < |m| ==> !IsTool(m[j])
    decreases |m| - i
  {
    if i < |m| && IsTool(m[i]) then ToolEnd(m, i + 1) else i
  }

  lemma {:induction false} ToolEndRun(m: seq<Message>, i: nat, k: nat)
    requires i <= k < |m|
    ensures k < ToolEnd(m, i) <==> forall l :: i <= l <= k ==> IsTool(m[l])
    decreases |m| - i
  {
    if i < k && IsTool(m[i]) { ToolEndRun(m, i + 1, k); }
  }

  /** Where the group that starts at `i` ends. */
  function GroupEnd(m: seq<Message>, i: nat): (j: nat)
    requires i < |m|
    ensures i < j <= |m|
  {
    if HasCalls(m[i]) then ToolEnd(m, i + 1) else i + 1
  }

  /** The groups from message `i` on. */
  function Grouping(m: seq<Message>, i: nat): seq<seq<nat>>
    requires i <= |m|
    decreases |m| - i
  {
    if i == |m| then [] else [UpTo(i, GroupEnd(m, i))] + Grouping(m, GroupEnd(m, i))
  }

  lemma UpToGrows(from: nat, to: nat)
    requires from <= to
    ensures UpTo(from, to + 1) == UpTo(from, to) + [to]
  {
  }

  lemma UpToOne(from: nat)
    ensures UpTo(from, from + 1) == [from]
  {
  }

  lemma GroupingStep(m: seq<Message>, i: nat, done: seq<seq<nat>>)
    requires i < |m|
    ensures done + Grouping(m, i) == done + [UpTo(i, GroupEnd(m, i))] + Grouping(m, GroupEnd(m, i))
  {
  }

  /** One pass over the messages. A tool message never follows a group that makes calls, so the case that
      would add one to such a group does not arise. */
  method Group(messages: seq<Message>) returns (groups: seq<seq<nat>>)
    ensures groups == Grouping(messages, 0)
  {
    groups := [];
    var index, total := 0, |messages|;
    ghost var last := 0;
    while index < total
      invariant 0 <= last <= index <= total
      invariant groups + Grouping(messages, index) == Grouping(messages, 0)
      invariant groups != [] ==> last < index == GroupEnd(messages, last)
      invariant groups != [] ==> groups[|groups| - 1] != [] && groups[|groups| - 1][0] == last
    {
      var message := messages[index];
      ghost var done := groups;
      last := index;
      if HasCalls(message) {
        UpToOne(last);
        var group := [index];
        index := index + 1;
        while index < total && IsTool(messages[index])
          invariant last < index <= total
          invariant group == UpTo(last, index)
          invariant ToolEnd(messages, index) == ToolEnd(messages, last + 1)
        {
          group := group + [index];
          UpToGrows(last, index);
          index := index + 1;
        }
        groups := groups + [group];
      } else {
        assert !(IsTool(message) && groups != [] && HasCalls(messages[groups[|groups| - 1][0]]));
        UpToOne(last);
        groups := groups + [[index]];
        index := index + 1;
      }
      assert index == GroupEnd(messages, last);
      GroupingStep(messages, last, done);
    }
  }

  function Flatten(groups: seq<seq<nat>>): seq<nat> {
    if groups == [] then [] else groups[0] + Flatten(groups[1..])
  }

  /** A call with exactly the run of tool messages after it, or a single message that makes no call. */
  ghost predicate IsGroup(m: seq<Message>, g: seq<nat>) {
    && g != [] && (forall k :: 0 <= k < |g| ==> g[k] < |m|)
    && (HasCalls(m[g[0]]) ==>
          && (forall k :: 1 <= k < |g| ==> IsTool(m[g[k]]))
          && (g[|g| - 1] + 1 < |m| ==> !IsTool(m[g[|g| - 1] + 1])))
    && (!HasCalls(m[g[0]]) ==> |g| == 1)
  }

  ghost predicate Partitions(m: seq<Message>, i: nat, groups: seq<seq<nat>>)
    requires i <= |m|
  {
    Flatten(groups) == UpTo(i, |m|) && forall k :: 0 <= k < |groups| ==> IsGroup(m, groups[k])
  }

  lemma HeadIsGroup(m: seq<Message>, i: nat)
    requires i < |m|
    ensures IsGroup(m, UpTo(i, GroupEnd(m, i)))
  {
    forall k | i < k < GroupEnd(m, i) ensures IsTool(m[k]) { ToolEndRun(m, i + 1, k); }
  }

  lemma {:induction false} GroupingPartitions(m: seq<Message>, i: nat)
    requires i <= |m|
    ensures Partitions(m, i, Grouping(m, i))
    decreases |m| - i
  {
    if i < |m| {
      GroupingPartitions(m, GroupEnd(m, i));
      var groups := Grouping(m, i);
      HeadIsGroup(m, i);
      assert groups[1..] == Grouping(m, GroupEnd(m, i));
      assert UpTo(i, |m|) == UpTo(i, GroupEnd(m, i)) + UpTo(GroupEnd(m, i), |m|);
    }
  }

  lemma UpToSplits(from: nat, to: nat, a: seq<nat>, b: seq<nat>)
    requires from <= to && UpTo(from, to) == a + b
    ensures from + |a| <= to && a == UpTo(from, from + |a|) && b == UpTo(from + |a|, to)
  {
    assert |UpTo(from, to)| == |a| + |b|;
    assert a == UpTo(from, to)[..|a|] && b == UpTo(from, to)[|a|..];
  }

  /** A partition begins with the group at its start, and the rest is a partition of what follows. */
  lemma FirstOfPartition(m: seq<Message>, i: nat, groups: seq<seq<nat>>)
    requires i <= |m| && Partitions(m, i, groups) && groups != []
    ensures i < |m| && groups[0] == UpTo(i, GroupEnd(m, i)) && Partitions(m, GroupEnd(m, i), groups[1..])
  {
    var g, rest := groups[0], groups[1..];
    assert IsGroup(m, g);
    UpToSplits(i, |m|, g, Flatten(rest));
    GroupEndsThere(m, i, g);
    forall k | 0 <= k < |rest| ensures IsGroup(m, rest[k]) { assert rest[k] == groups[k + 1]; }
  }

  lemma {:induction false} PartitionIsGrouping(m: seq<Message>, i: nat, groups: seq<seq<nat>>)
    requires i <= |m| && Partitions(m, i, groups)
    ensures groups == Grouping(m, i)
    decreases |groups|
  {
    if groups == [] {
      assert |UpTo(i, |m|)| == 0;
    } else {
      FirstOfPartition(m, i, groups);
      PartitionIsGrouping(m, GroupEnd(m, i), groups[1..]);
      assert groups == [groups[0]] + groups[1..];
    }
  }

  lemma GroupEndsThere(m: seq<Message>, i: nat, g: seq<nat>)
    requires i + |g| <= |m| && g == UpTo(i, i + |g|) && IsGroup(m, g)
    ensures i + |g| == GroupEnd(m, i)
  {
    assert g[0] == i && g[|g| - 1] == i + |g| - 1;
    forall k | i < k < i + |g| ensures HasCalls(m[i]) ==> IsTool(m[k]) { assert g[k - i] == k; }
    if |g| > 1 { ToolEndRun(m, i + 1, i + |g| - 1); }
    if HasCalls(m[i]) && i + |g| < |m| { ToolEndRun(m, i + 1, i + |g|); }
  }

  /** The groups are the one way to cut 0..n-1 into consecutive pieces that are groups. */
  lemma GroupingIff(m: seq<Message>, groups: seq<seq<nat>>)
    ensures groups == Grouping(m, 0) <==>
            Flatten(groups) == UpTo(0, |m|) && forall k :: 0 <= k < |groups| ==> IsGroup(m, groups[k])
  {
    GroupingPartitions(m, 0);
    if Partitions(m, 0, groups) { PartitionIsGrouping(m, 0, groups); }
  }

  // Complete groups

  predicate Named(v: Value) {
    v.Str? && Strip(v.text) != []
  }

  function ResultIds(m: seq<Message>, g: seq<nat>): seq<Value>
    requires forall k :: 0 <= k < |g| ==> g[k] < |m|
  {
    seq(|g|, k requires 0 <= k < |g| => m[g[k]].callId)
  }


  predicate Complete(m: seq<Message>, g: seq<nat>)
    requires forall k :: 0 <= k < |g| ==> g[k] < |m|
  {
    if g == [] || m[g[0]].calls.NotAList? then false
    else if !HasCalls(m[g[0]]) then !IsTool(m[g[0]])
    else if m[g[0]].role != Str("assistant") then false
    else
      var expected := m[g[0]].calls.ids;
      var actual := ResultIds(m, g[1..]);
      if exists i :: i in g[1..] && !IsTool(m[i]) then false
      else if exists v :: v in expected + actual && !Named(v) then false
      else |Elems(expected)| == |expected| == |actual| == |Elems(actual)| && Elems(expected) == Elems(actual)
  }

  /** Result `b[k]` answers call `k`; every call has its own answer and every result answers one call. */
  ghost predicate Answers(expected: seq<Value>, actual: seq<Value>, b: seq<nat>) {
    && |b| == |expected| == |actual|
    && Distinct(b)
    && forall k :: 0 <= k < |b| ==> b[k] < |actual| && expected[k] == actual[b[k]]
  }

  ghost predicate Paired(expected: seq<Value>, actual: seq<Value>) {
    Distinct(expected) && exists b :: Answers(expected, actual, b)
  }

  lemma PairedIff(expected: seq<Value>, actual: seq<Value>)
    ensures Paired(expected, actual) <==>
            |Elems(expected)| == |expected| == |actual| == |Elems(actual)| && Elems(expected) == Elems(actual)
  {
    DistinctIff(expected);
    DistinctIff(actual);
    if Paired(expected, actual) {
      var b :| Answers(expected, actual, b);
      AnswersCover(expected, actual, b);
    }
    if Distinct(expected) && |expected| == |actual| && Elems(expected) == Elems(actual) {
      var b := seq(|expected|, k requires 0 <= k < |expected| => Position(expected[k], actual));
      forall k | 0 <= k < |b| ensures b[k] < |actual| && expected[k] == actual[b[k]] {
        assert expected[k] in Elems(expected);
      }
      assert Answers(expected, actual, b);
    }
  }

  function Position(v: Value, s: seq<Value>): (k: nat)
    ensures v in s ==> k < |s| && s[k] == v
  {
    if s == [] || s[0] == v then 0 else 1 + Position(v, s[1..])
  }

  /** As many different calls answered as there are results: no result is left over or repeated. */
  lemma AnswersCover(expected: seq<Value>, actual: seq<Value>, b: seq<nat>)
    requires Distinct(expected) && Answers(expected, actual, b)
    ensures Distinct(actual) && Elems(expected) == Elems(actual)
  {
    DistinctIff(expected);
    DistinctIff(actual);
    assert Elems(expected) <= Elems(actual) by {
      forall k | 0 <= k < |expected| ensures expected[k] in actual { assert expected[k] == actual[b[k]]; }
    }
    SubsetOfSameSize(Elems(expected), Elems(actual));
  }

  /** A group with calls is complete exactly when an assistant makes them, only tool results follow, no id is
      blank, and calls and results pair off one to one by id. */
  lemma CompleteIff(m: seq<Message>, g: seq<nat>)
    requires g != [] && (forall k :: 0 <= k < |g| ==> g[k] < |m|) && HasCalls(m[g[0]])
    ensures Complete(m, g) <==>
            && m[g[0]].role == Str("assistant")
            && (forall k :: 1 <= k < |g| ==> m[g[k]].role == Str("tool") && NotBlank(m[g[k]].callId))
            && (forall k :: 0 <= k < |m[g[0]].calls.ids| ==> NotBlank(m[g[0]].calls.ids[k]))
            && Paired(m[g[0]].calls.ids, ResultIds(m, g[1..]))
  {
    var expected, actual := m[g[0]].calls.ids, ResultIds(m, g[1..]);
    PairedIff(expected, actual);
    NamedIff(expected, actual);
    ResultsIff(m, g);
  }

  /** A message that makes no calls is complete by itself, unless it is a tool result or its calls are no list. */
  lemma AloneCompleteIff(m: seq<Message>, i: nat)
    requires i < |m| && !HasCalls(m[i])
    ensures Complete(m, [i]) <==> m[i].role != Str("tool") && !m[i].calls.NotAList?
  {
  }

  lemma NamedIff(a: seq<Value>, b: seq<Value>)
    ensures !(exists v :: v in a + b && !Named(v)) <==>
            (forall k :: 0 <= k < |a| ==> NotBlank(a[k])) && forall k :: 0 <= k < |b| ==> NotBlank(b[k])
  {
    AllNamedIff(a + b);
    assert forall k :: 0 <= k < |b| ==> (a + b)[|a| + k] == b[k];
    assert forall k :: 0 <= k < |a| ==> (a + b)[k] == a[k];
  }

  lemma AllNamedIff(ids: seq<Value>)
    ensures !(exists v :: v in ids && !Named(v)) <==> forall k :: 0 <= k < |ids| ==> NotBlank(ids[k])
  {
    forall v: Value ensures Named(v) <==> NotBlank(v) { if v.Str? { BlankIff(v.text); } }
  }

  lemma ResultsIff(m: seq<Message>, g: seq<nat>)
    requires g != [] && (forall k :: 0 <= k < |g| ==> g[k] < |m|)
    ensures (forall i :: i in g[1..] ==> IsTool(m[i])) <==> forall k :: 1 <= k < |g| ==> IsTool(m[g[k]])
    ensures (forall k :: 0 <= k < |g| - 1 ==> NotBlank(ResultIds(m, g[1..])[k])) <==>
            forall k :: 1 <= k < |g| ==> NotBlank(m[g[k]].callId)
  {
    assert forall k :: 1 <= k < |g| ==> g[k] == g[1..][k - 1];
    assert forall k :: 1 <= k < |g| ==> m[g[k]].callId == ResultIds(m, g[1..])[k - 1];
  }

  ghost predicate NotBlank(v: Value) {
    v.Str? && exists k :: 0 <= k < |v.text| && !IsSpace(v.text[k])
  }

  // Replacing whole groups

  /** Every group from message `i` on is complete. */
  predicate AcceptedFrom(m: seq<Message>, i: nat)
    requires i <= |m|
    decreases |m| - i
  {
    i == |m| || (Complete(m, UpTo(i, GroupEnd(m, i))) && AcceptedFrom(m, GroupEnd(m, i)))
  }

  /** What is sent to a provider: a history with a group that is not complete is refused. */
  predicate Accepted(m: seq<Message>) {
    AcceptedFrom(m, 0)
  }

  lemma {:induction false} AcceptedIff(m: seq<Message>, i: nat)
    requires i <= |m|
    ensures AcceptedFrom(m, i) <==>
            forall n :: 0 <= n < |Grouping(m, i)| ==> IsGroup(m, Grouping(m, i)[n]) && Complete(m, Grouping(m, i)[n])
    decreases |m| - i
  {
    if i < |m| {
      var j := GroupEnd(m, i);
      AcceptedIff(m, j);
      HeadIsGroup(m, i);
      FirstAndRest(m, UpTo(i, j), Grouping(m, j), Grouping(m, i), |Grouping(m, j)|);
      assert AcceptedFrom(m, i) <==> Complete(m, UpTo(i, j)) && AcceptedFrom(m, j);
      assert |Grouping(m, i)| == |Grouping(m, j)| + 1;
    }
  }

  lemma FirstAndRest(m: seq<Message>, g: seq<nat>, rest: seq<seq<nat>>, all: seq<seq<nat>>, k: nat)
    requires k <= |rest| && all == [g] + rest
    ensures (forall n :: 0 <= n < k + 1 ==> IsGroup(m, all[n]) && Complete(m, all[n])) <==>
            (IsGroup(m, g) && Complete(m, g) && forall n :: 0 <= n < k ==> IsGroup(m, rest[n]) && Complete(m, rest[n]))
  {
    assert all[0] == g && forall n :: 0 <= n < k ==> all[n + 1] == rest[n];
    assert forall n :: 1 <= n < k + 1 ==> all[n] == rest[n - 1];
  }

  lemma SameMessages(m: seq<Message>, g: seq<nat>, m': seq<Message>, g': seq<nat>)
    requires |g| == |g'| && (forall k :: 0 <= k < |g| ==> g[k] < |m| && g'[k] < |m'| && m[g[k]] == m'[g'[k]])
    ensures Complete(m, g) ==> Complete(m', g')
    ensures Complete(m', g') ==> Complete(m, g)
  {
    if g != [] {
      assert ResultIds(m, g[1..]) == ResultIds(m', g'[1..]);
      assert forall k :: 0 <= k < |g[1..]| ==> m[g[1..][k]] == m'[g'[1..][k]];
    }
  }

  lemma {:induction false} ToolEndAfter(p: seq<Message>, m: seq<Message>, i: nat)
    requires i <= |m|
    ensures ToolEnd(p + m, |p| + i) == |p| + ToolEnd(m, i)
    decreases |m| - i
  {
    if i < |m| {
      assert (p + m)[|p| + i] == m[i];
      ToolEndAfter(p, m, i + 1);
    }
  }

  lemma GroupAfter(p: seq<Message>, m: seq<Message>, i: nat)
    requires i < |m|
    ensures GroupEnd(p + m, |p| + i) == |p| + GroupEnd(m, i)
    ensures Complete(m, UpTo(i, GroupEnd(m, i))) == Complete(p + m, UpTo(|p| + i, |p| + GroupEnd(m, i)))
  {
    GroupEndAfter(p, m, i);
    CompleteAfter(p, m, i, GroupEnd(m, i));
  }

  lemma GroupEndAfter(p: seq<Message>, m: seq<Message>, i: nat)
    requires i < |m|
    ensures GroupEnd(p + m, |p| + i) == |p| + GroupEnd(m, i)
  {
    assert (p + m)[|p| + i] == m[i];
    ToolEndAfter(p, m, i + 1);
  }

  lemma CompleteAfter(p: seq<Message>, m: seq<Message>, i: nat, j: nat)
    requires i <= j <= |m|
    ensures Complete(m, UpTo(i, j)) == Complete(p + m, UpTo(|p| + i, |p| + j))
  {
    var w, g, g' := p + m, UpTo(i, j), UpTo(|p| + i, |p| + j);
    forall k | 0 <= k < |g| ensures g[k] < |m| && g'[k] < |w| && m[g[k]] == w[g'[k]] {
      assert g[k] == i + k && g'[k] == |p| + i + k;
    }
    SameMessages(m, g, w, g');
  }

  /** From position `n` on, `w` has the groups of `m`. */
  ghost predicate SameGroups(w: seq<Message>, n: nat, m: seq<Message>) {
    && |w| == n + |m|
    && forall i :: 0 <= i < |m| ==>
      && GroupEnd(w, n + i) == n + GroupEnd(m, i)
      && Complete(w, UpTo(n + i, n + GroupEnd(m, i))) == Complete(m, UpTo(i, GroupEnd(m, i)))
  }

  lemma GroupsAfter(p: seq<Message>, m: seq<Message>)
    ensures SameGroups(p + m, |p|, m)
  {
    forall i | 0 <= i < |m| ensures GroupEnd(p + m, |p| + i) == |p| + GroupEnd(m, i)
      && Complete(p + m, UpTo(|p| + i, |p| + GroupEnd(m, i))) == Complete(m, UpTo(i, GroupEnd(m, i)))
    {
      GroupAfter(p, m, i);
    }
  }

  lemma {:induction false} SameAccepted(w: seq<Message>, n: nat, m: seq<Message>, i: nat)
    requires i <= |m| && SameGroups(w, n, m)
    ensures AcceptedFrom(w, n + i) == AcceptedFrom(m, i)
    decreases |m| - i
  {
    if i < |m| {
      var j := GroupEnd(m, i);
      assert GroupEnd(w, n + i) == n + j;
      SameAccepted(w, n, m, j);
    }
  }

  /** What precedes has no part in whether the rest of a history is accepted. */
  lemma AcceptedAfter(p: seq<Message>, m: seq<Message>, i: nat)
    requires i <= |m|
    ensures AcceptedFrom(p + m, |p| + i) == AcceptedFrom(m, i)
  {
    GroupsAfter(p, m);
    SameAccepted(p + m, |p|, m, i);
  }

  lemma RestIsAccepted(m: seq<Message>, j: nat)
    requires j <= |m| && AcceptedFrom(m, j)
    ensures Accepted(m[j..])
  {
    assert m == m[..j] + m[j..];
    AcceptedAfter(m[..j], m[j..], 0);
  }

  /** An accepted history does not begin with a tool result. */
  lemma AcceptedStart(m: seq<Message>)
    requires Accepted(m) && m != []
    ensures !IsTool(m[0])
  {
    assert UpTo(0, GroupEnd(m, 0))[0] == 0;
  }

  lemma {:induction false} ToolEndBefore(a: seq<Message>, b: seq<Message>, i: nat)
    requires i <= |a| && (b != [] ==> !IsTool(b[0]))
    ensures ToolEnd(a + b, i) == ToolEnd(a, i)
    decreases |a| - i
  {
    if i < |a| { ToolEndBefore(a, b, i + 1); }
  }

  lemma GroupBefore(a: seq<Message>, b: seq<Message>, i: nat)
    requires i < |a| && (b != [] ==> !IsTool(b[0]))
    ensures GroupEnd(a + b, i) == GroupEnd(a, i)
    ensures Complete(a + b, UpTo(i, GroupEnd(a, i))) == Complete(a, UpTo(i, GroupEnd(a, i)))
  {
    var j := GroupEnd(a, i);
    ToolEndBefore(a, b, i + 1);
    SameMessages(a, UpTo(i, j), a + b, UpTo(i, j));
  }

  lemma {:induction false} AcceptedConcat(a: seq<Message>, b: seq<Message>, i: nat)
    requires i <= |a| && AcceptedFrom(a, i) && Accepted(b)
    ensures AcceptedFrom(a + b, i)
    decreases |a| - i
  {
    if i == |a| {
      AcceptedAfter(a, b, 0);
    } else {
      if b != [] { AcceptedStart(b); }
      GroupBefore(a, b, i);
      AcceptedConcat(a, b, GroupEnd(a, i));
    }
  }

  /** `k` is where a group from `i` on starts, or the end. */
  ghost predicate Boundary(m: seq<Message>, i: nat, k: nat)
    requires i <= |m|
    decreases |m| - i
  {
    i == k || (i < |m| && Boundary(m, GroupEnd(m, i), k))
  }

  /** The first message of any group and the one after its last are boundaries. */
  lemma {:induction false} SpansAreBoundaries(m: seq<Message>, i: nat, n: nat)
    requires i <= |m| && n < |Grouping(m, i)|
    ensures var g := Grouping(m, i)[n]; g != [] && Boundary(m, i, g[0]) && Boundary(m, i, g[|g| - 1] + 1)
    decreases n
  {
    if n > 0 {
      assert Grouping(m, i)[n] == Grouping(m, GroupEnd(m, i))[n - 1];
      SpansAreBoundaries(m, GroupEnd(m, i), n - 1);
    }
  }

  /** Cut at a boundary, both parts of an accepted history are accepted. */
  lemma {:induction false} AcceptedSplit(m: seq<Message>, i: nat, k: nat)
    requires i <= |m| && AcceptedFrom(m, i) && Boundary(m, i, k)
    ensures i <= k <= |m| && AcceptedFrom(m, k) && AcceptedFrom(m[..k], i)
    decreases |m| - i
  {
    if i != k {
      var j := GroupEnd(m, i);
      AcceptedSplit(m, j, k);
      GroupEndInside(m, i, k);
      SameMessages(m, UpTo(i, j), m[..k], UpTo(i, j));
    }
  }

  lemma GroupEndInside(m: seq<Message>, i: nat, k: nat)
    requires i < k <= |m| && GroupEnd(m, i) <= k
    ensures GroupEnd(m[..k], i) == GroupEnd(m, i)
  {
    if HasCalls(m[i]) { ToolEndInside(m, i + 1, k); }
  }

  lemma {:induction false} ToolEndInside(m: seq<Message>, i: nat, k: nat)
    requires i <= k <= |m| && ToolEnd(m, i) <= k
    ensures ToolEnd(m[..k], i) == ToolEnd(m, i)
    decreases k - i
  {
    if i < k && IsTool(m[i]) { ToolEndInside(m, i + 1, k); }
  }

  /** Compaction is safe: in an accepted history, whole groups may be replaced by any accepted messages. */
  lemma CompactionKeepsPairing(m: seq<Message>, i: nat, j: nat, middle: seq<Message>)
    requires Accepted(m) && Accepted(middle) && Boundary(m, 0, i) && Boundary(m, 0, j)
    ensures i <= |m| && j <= |m| && Accepted(m[..i] + middle + m[j..])
  {
    AcceptedSplit(m, 0, i);
    AcceptedSplit(m, 0, j);
    RestIsAccepted(m, j);
    AcceptedConcat(m[..i], middle, 0);
    AcceptedConcat(m[..i] + middle, m[j..], 0);
  }

  // ------------------------------------------------- an unfinished last group

  /** Every group from message `i` on is complete, but perhaps the last. */
  predicate OpenFrom(m: seq<Message>, i: nat)
    requires i <= |m|
    decreases |m| - i
  {
    i == |m| || GroupEnd(m, i) == |m| || (Complete(m, UpTo(i, GroupEnd(m, i))) && OpenFrom(m, GroupEnd(m, i)))
  }

  lemma {:induction false} OpenIff(m: seq<Message>, i: nat)
    requires i <= |m|
    ensures OpenFrom(m, i) <==>
            forall n :: 0 <= n < |Grouping(m, i)| - 1 ==> IsGroup(m, Grouping(m, i)[n]) && Complete(m, Grouping(m, i)[n])
    decreases |m| - i
  {
    if i < |m| {
      var j := GroupEnd(m, i);
      OpenIff(m, j);
      HeadIsGroup(m, i);
      if j < |m| { FirstAndRest(m, UpTo(i, j), Grouping(m, j), Grouping(m, i), |Grouping(m, j)| - 1); }
    }
  }

  lemma {:induction false} AcceptedIsOpen(m: seq<Message>, i: nat)
    requires i <= |m| && AcceptedFrom(m, i)
    ensures OpenFrom(m, i)
    decreases |m| - i
  {
    if i < |m| { AcceptedIsOpen(m, GroupEnd(m, i)); }
  }

  lemma {:induction false} SameOpen(w: seq<Message>, n: nat, m: seq<Message>, i: nat)
    requires i <= |m| && SameGroups(w, n, m)
    ensures OpenFrom(w, n + i) == OpenFrom(m, i)
    decreases |m| - i
  {
    if i < |m| {
      var j := GroupEnd(m, i);
      assert GroupEnd(w, n + i) == n + j;
      if j < |m| { SameOpen(w, n, m, j); }
    }
  }

  lemma OpenAfter(p: seq<Message>, m: seq<Message>, i: nat)
    requires i <= |m|
    ensures OpenFrom(p + m, |p| + i) == OpenFrom(m, i)
  {
    GroupsAfter(p, m);
    SameOpen(p + m, |p|, m, i);
  }

  lemma {:induction false} OpenConcat(a: seq<Message>, b: seq<Message>, i: nat)
    requires i <= |a| && AcceptedFrom(a, i) && OpenFrom(b, 0) && (b != [] ==> !IsTool(b[0]))
    ensures OpenFrom(a + b, i)
    decreases |a| - i
  {
    if i == |a| {
      OpenAfter(a, b, 0);
    } else {
      GroupBefore(a, b, i);
      OpenConcat(a, b, GroupEnd(a, i));
    }
  }

  /** Cut before a group, what precedes is accepted and the rest is complete but for its last group. */
  lemma {:induction false} OpenSplit(m: seq<Message>, i: nat, k: nat)
    requires i <= |m| && OpenFrom(m, i) && Boundary(m, i, k)
    ensures i <= k <= |m| && OpenFrom(m, k) && (k < |m| ==> AcceptedFrom(m[..k], i))
    decreases |m| - i
  {
    if i != k {
      var j := GroupEnd(m, i);
      if j == |m| {
        assert k == |m|;
      } else {
        OpenSplit(m, j, k);
        if k < |m| {
          GroupEndInside(m, i, k);
          SameMessages(m, UpTo(i, j), m[..k], UpTo(i, j));
        }
      }
    }
  }

  /** A checkpoint before any rest: it makes no calls, so it takes nothing from what follows. */
  lemma CheckpointBefore(rest: seq<Message>)
    requires OpenFrom(rest, 0)
    ensures OpenFrom([Checkpoint()] + rest, 0)
  {
    var m := [Checkpoint()] + rest;
    assert GroupEnd(m, 0) == 1 && UpTo(0, 1)[0] == 0;
    OpenAfter([Checkpoint()], rest, 0);
  }

  /** From the first message of a group to the one after the last of that or a later group. */
  ghost predicate IsSpan(m: seq<Message>, i: nat, j: nat) {
    exists a, b :: 0 <= a <= b < |Grouping(m, 0)| && Starts(Grouping(m, 0)[a], i) && Ends(Grouping(m, 0)[b], j)
  }

  predicate Starts(g: seq<nat>, i: nat) {
    g != [] && g[0] == i
  }

  predicate Ends(g: seq<nat>, j: nat) {
    g != [] && g[|g| - 1] + 1 == j
  }

  /** Every span of whole groups may be replaced by a checkpoint, one assistant message that makes no calls: every
      group but perhaps the last stays complete, and if all were, all are. */
  lemma CheckpointKeepsPairing(m: seq<Message>, i: nat, j: nat)
    requires OpenFrom(m, 0) && IsSpan(m, i, j)
    ensures i <= |m| && j <= |m| && OpenFrom(m[..i] + [Checkpoint()] + m[j..], 0)
    ensures Accepted(m) ==> Accepted(m[..i] + [Checkpoint()] + m[j..])
  {
    SpanBoundaries(m, i, j);
    OpenCompaction(m, i, j);
    if Accepted(m) {
      CheckpointIsAccepted();
      CompactionKeepsPairing(m, i, j, [Checkpoint()]);
    }
  }

  lemma SpanBoundaries(m: seq<Message>, i: nat, j: nat)
    requires IsSpan(m, i, j)
    ensures Boundary(m, 0, i) && Boundary(m, 0, j) && i < |m|
  {
    var a, b :| 0 <= a <= b < |Grouping(m, 0)| && Starts(Grouping(m, 0)[a], i) && Ends(Grouping(m, 0)[b], j);
    SpansAreBoundaries(m, 0, a);
    SpansAreBoundaries(m, 0, b);
    GroupStartsInside(m, a);
  }

  lemma GroupStartsInside(m: seq<Message>, n: nat)
    requires n < |Grouping(m, 0)|
    ensures Grouping(m, 0)[n] != [] && Grouping(m, 0)[n][0] < |m|
  {
    GroupingPartitions(m, 0);
    assert IsGroup(m, Grouping(m, 0)[n]);
  }

  lemma CheckpointIsAccepted()
    ensures Accepted([Checkpoint()])
  {
    assert UpTo(0, 1)[0] == 0;
  }

  lemma OpenCompaction(m: seq<Message>, i: nat, j: nat)
    requires OpenFrom(m, 0) && Boundary(m, 0, i) && Boundary(m, 0, j) && i < |m|
    ensures j <= |m| && OpenFrom(m[..i] + [Checkpoint()] + m[j..], 0)
  {
    OpenSplit(m, 0, i);
    OpenSplit(m, 0, j);
    OpenRest(m, j);
    CheckpointBetween(m[..i], m[j..]);
  }

  lemma OpenRest(m: seq<Message>, j: nat)
    requires j <= |m| && OpenFrom(m, j)
    ensures OpenFrom(m[j..], 0)
  {
    assert m == m[..j] + m[j..];
    OpenAfter(m[..j], m[j..], 0);
  }

  lemma CheckpointBetween(a: seq<Message>, b: seq<Message>)
    requires Accepted(a) && OpenFrom(b, 0)
    ensures OpenFrom(a + [Checkpoint()] + b, 0)
  {
    CheckpointBefore(b);
    OpenConcat(a, [Checkpoint()] + b, 0);
    assert a + ([Checkpoint()] + b) == a + [Checkpoint()] + b;
  }

  function Checkpoint(): Message {
    Message(Str("assistant"), NoCalls, Absent)
  }

  /** Acceptance is needed: between a call and a stray result, a lone message keeps them in separate groups,
      and dropping it joins them. */
  lemma DroppingCanJoin(call: Message, other: Message, stray: Message)
    requires HasCalls(call) && !HasCalls(other) && !IsTool(other) && IsTool(stray) && !HasCalls(stray)
    ensures |Grouping([call, other, stray], 0)| == 3 && |Grouping([call, stray], 0)| == 1
    ensures !Accepted([call, other, stray])
  {
    var m, m' := [call, other, stray], [call, stray];
    assert GroupEnd(m, 0) == 1 && GroupEnd(m, 1) == 2 && GroupEnd(m, 2) == 3;
    assert Grouping(m, 3) == [] && |Grouping(m, 2)| == 1 && |Grouping(m, 1)| == 2;
    assert GroupEnd(m', 0) == 2 && Grouping(m', 2) == [];
    assert UpTo(2, 3)[0] == 2;
  }
}
