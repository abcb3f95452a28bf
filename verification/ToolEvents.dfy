/** Pairing tool invocations with their results on one owned stream. */
module ToolEvents {
  import opened Tables
  import opened DisplayBlocks
  import opened BlockMerge

  const MAX_TOOLS := 128

  datatype Status = Running | Completed | Error | Observed

  datatype Entry = Entry(
    id: string, connector: string, action: string, status: Status,
    arguments: string, result: string, error: string, observedAt: Time)

  /** A message node after the collector has read its fields; absent text is empty. */
  datatype Node =
    | Invocation(id: string, recipient: string, connector: string, action: string, resource: string,
                 status: Option<Status>, hasResult: bool, arguments: string, result: string, error: string)
    | ToolResult(id: string, target: string, action: string, author: string, resource: string,
                 value: string, isError: bool)
    | OtherNode

  /** `named` says that a connector label identifies a real connector; `source` is the one a result reveals. */
  datatype Naming = Naming(named: string -> bool, source: (Node, string) -> string)

  /** `calls` in insertion order; `pending` in the order calls became running. */
  datatype Tools = Tools(
    calls: seq<Entry>, pending: seq<string>, results: map<string, string>,
    recipients: map<string, string>, resources: map<string, string>)

  function NoTools(): Tools { Tools([], [], map[], map[], map[]) }

  predicate FinishedCall(s: Status) { s.Completed? || s.Error? }

  // ---------------------------------------------------------------- lookups

  function FindCall(calls: seq<Entry>, id: string, from: nat := 0): (i: nat)
    requires from <= |calls|
    ensures from <= i <= |calls|
    ensures i < |calls| ==> calls[i].id == id
    ensures forall k :: from <= k < i ==> calls[k].id != id
    decreases |calls| - from
  {
    if from == |calls| || calls[from].id == id then from else FindCall(calls, id, from + 1)
  }

  predicate Known(t: Tools, id: string) { FindCall(t.calls, id) < |t.calls| }

  function Remove(pending: seq<string>, id: string): seq<string> {
    if pending == [] then []
    else if pending[0] == id then pending[1..] else [pending[0]] + Remove(pending[1..], id)
  }

  function Lookup(m: map<string, string>, key: string): string {
    if key in m then m[key] else ""
  }

  /** The text before the first dot. */
  function Head(s: string): string {
    if s == "" || s[0] == '.' then "" else [s[0]] + Head(s[1..])
  }

  // ---------------------------------------------------------------- invocations

  function NewStatus(n: Node, was: Option<Entry>): Status
    requires n.Invocation?
  {
    var claimed := if n.status.Some? then n.status.value else Running;
    var seen := if n.hasResult && claimed.Running? then Completed else claimed;
    if was.Some? && FinishedCall(was.value.status) && seen.Running? then was.value.status else seen
  }

  function Keep(next: string, was: string): string {
    if next == "" then was else next
  }

  function NewEntry(n: Node, id: string, was: Option<Entry>, at: Time): Entry
    requires n.Invocation?
  {
    var e := Entry(id, Take(n.connector, 100), Take(n.action, 120), NewStatus(n, was), n.arguments, n.result, n.error,
                   if was.Some? then was.value.observedAt else at);
    if was.Some? then
      e.(arguments := Keep(n.arguments, was.value.arguments), result := Keep(n.result, was.value.result),
         error := Keep(n.error, was.value.error))
    else e
  }

  function CallId(t: Tools, n: Node): string
    requires n.Invocation?
  {
    if n.id != "" then n.id else "tool-" + Dec(|t.calls|)
  }

  function NewPending(pending: seq<string>, id: string, status: Status): seq<string> {
    if status.Running? then (if id in pending then pending else pending + [id]) else Remove(pending, id)
  }

  function Invoke(t: Tools, n: Node, at: Time): Tools
    requires n.Invocation?
  {
    var id := CallId(t, n);
    var i := FindCall(t.calls, id);
    if i == |t.calls| && |t.calls| >= MAX_TOOLS then t
    else
      var was := if i < |t.calls| then Some(t.calls[i]) else None;
      var e := NewEntry(n, id, was, at);
      t.(calls := if i < |t.calls| then t.calls[i := e] else t.calls + [e],
         pending := NewPending(t.pending, id, e.status),
         recipients := t.recipients[id := n.recipient],
         resources := if n.resource != "" then t.resources[id := n.resource] else t.resources)
  }

  // ---------------------------------------------------------------- results

  /** The action a result is matched by: its target's, if that is known. */
  function ResultAction(t: Tools, n: Node): string
    requires n.ToolResult?
  {
    var i := FindCall(t.calls, n.target);
    if i < |t.calls| then t.calls[i].action else n.action
  }

  predicate SameResource(t: Tools, n: Node, key: string)
    requires n.ToolResult?
  {
    n.resource != "" && Lookup(t.resources, key) == n.resource
  }

  predicate SameAction(t: Tools, n: Node, key: string)
    requires n.ToolResult?
  {
    var i := FindCall(t.calls, key);
    ResultAction(t, n) == "" || (i < |t.calls| && t.calls[i].action == ResultAction(t, n))
    || (n.author != "" && (Lookup(t.recipients, key) == n.author || Head(Lookup(t.recipients, key)) == n.author))
  }

  predicate Fits(t: Tools, n: Node, byResource: bool, key: string)
    requires n.ToolResult?
  {
    if byResource then SameResource(t, n, key) else SameAction(t, n, key)
  }

  /** The candidates among some pending calls, in order. */
  function Select(t: Tools, n: Node, byResource: bool, keys: seq<string>): seq<string>
    requires n.ToolResult?
  {
    if keys == [] then []
    else
      var rest := Select(t, n, byResource, keys[..|keys| - 1]);
      if Fits(t, n, byResource, keys[|keys| - 1]) then rest + [keys[|keys| - 1]] else rest
  }

  function ByResource(t: Tools, n: Node): seq<string>
    requires n.ToolResult?
  {
    Select(t, n, true, t.pending)
  }

  function ByAction(t: Tools, n: Node): seq<string>
    requires n.ToolResult?
  {
    Select(t, n, false, t.pending)
  }

  /** The call a result belongs to: the recorded one, the named target, the only pending call on its resource,
      or the only pending call of its action on no other resource; None when that leaves it open. */
  function Chosen(t: Tools, n: Node): Option<string>
    requires n.ToolResult?
  {
    var same, matching := ByResource(t, n), ByAction(t, n);
    if n.id != "" && n.id in t.results then Some(t.results[n.id])
    else if Known(t, n.target) then Some(n.target)
    else if |same| == 1 then Some(same[0])
    else if |matching| == 1 &&
      (n.resource == "" || Lookup(t.resources, matching[0]) == "" || t.resources[matching[0]] == n.resource) then
      Some(matching[0])
    else None
  }

  function Answered(env: Naming, n: Node, action: string, e: Entry): Entry
    requires n.ToolResult?
  {
    var revealed := env.source(n, action);
    e.(connector := if !env.named(e.connector) && revealed != "" then Take(revealed, 100) else e.connector,
       result := n.value, status := if n.isError then Error else Completed)
  }

  function Answer(env: Naming, t: Tools, n: Node): Tools
    requires n.ToolResult?
  {
    match Chosen(t, n)
    case None => t
    case Some(key) =>
      var i := FindCall(t.calls, key);
      if i == |t.calls| then t
      else
        t.(calls := t.calls[i := Answered(env, n, ResultAction(t, n), t.calls[i])],
           pending := Remove(t.pending, key),
           results := if n.id != "" && |t.results| < MAX_TOOLS then t.results[n.id := key] else t.results)
  }

  function Observe(env: Naming, t: Tools, n: Node, at: Time): Tools {
    match n
    case Invocation(_, _, _, _, _, _, _, _, _, _) => Invoke(t, n, at)
    case ToolResult(_, _, _, _, _, _, _) => Answer(env, t, n)
    case OtherNode => t
  }

  datatype Seen = Seen(node: Node, at: Time)

  function ObserveAll(env: Naming, t: Tools, seen: seq<Seen>): Tools {
    if seen == [] then t
    else Observe(env, ObserveAll(env, t, seen[..|seen| - 1]), seen[|seen| - 1].node, seen[|seen| - 1].at)
  }

  // ---------------------------------------------------------------- the pending list is the running calls

  ghost predicate NoDuplicates(keys: seq<string>) {
    forall i, j :: 0 <= i < j < |keys| ==> keys[i] != keys[j]
  }

  ghost predicate UniqueCalls(calls: seq<Entry>) {
    forall i, j :: 0 <= i < j < |calls| ==> calls[i].id != calls[j].id
  }

  predicate IsRunning(t: Tools, id: string) {
    var i := FindCall(t.calls, id);
    i < |t.calls| && t.calls[i].status.Running?
  }

  ghost predicate Valid(t: Tools) {
    && UniqueCalls(t.calls) && |t.calls| <= MAX_TOOLS && |t.results| <= MAX_TOOLS
    && NoDuplicates(t.pending)
    && (forall id :: id in t.pending <==> IsRunning(t, id))
    && (forall r :: r in t.results ==> Known(t, t.results[r]))
  }

  lemma {:induction false} RemoveDrops(pending: seq<string>, id: string)
    requires NoDuplicates(pending)
    ensures NoDuplicates(Remove(pending, id))
    ensures forall k :: k in Remove(pending, id) <==> k in pending && k != id
  {
    if pending != [] {
      var rest := pending[1..];
      assert forall i :: 0 <= i < |rest| ==> rest[i] == pending[i + 1];
      RemoveDrops(rest, id);
      assert pending[0] !in rest;
      assert pending == [pending[0]] + rest;
      if pending[0] != id {
        var r := Remove(rest, id);
        assert forall j :: 0 <= j < |r| ==> r[j] in r;
      }
    }
  }

  lemma FindIsUnique(calls: seq<Entry>, i: nat)
    requires UniqueCalls(calls) && i < |calls|
    ensures FindCall(calls, calls[i].id) == i
  {
  }

  /** Replacing or appending one entry leaves every other id where it was. */
  lemma FindAfterUpdate(calls: seq<Entry>, i: nat, e: Entry, id: string)
    requires i <= |calls| && (i < |calls| ==> calls[i].id == e.id) && FindCall(calls, e.id) == i
    ensures var after := if i < |calls| then calls[i := e] else calls + [e];
            FindCall(after, id) ==
              if id == e.id then i else if FindCall(calls, id) < |calls| then FindCall(calls, id) else |after|
  {
    var after := if i < |calls| then calls[i := e] else calls + [e];
    assert after[i] == e;
    var k, m := FindCall(calls, id), FindCall(after, id);
    assert forall j :: 0 <= j < |calls| && j != i ==> after[j] == calls[j];
    if id != e.id {
      assert forall j :: 0 <= j < |calls| ==> (after[j].id == id <==> calls[j].id == id);
    }
  }

  lemma PendingFollowsStatus(t: Tools, i: nat, e: Entry)
    requires Valid(t) && i <= |t.calls| && FindCall(t.calls, e.id) == i
    ensures var after := t.(calls := if i < |t.calls| then t.calls[i := e] else t.calls + [e],
                            pending := NewPending(t.pending, e.id, e.status));
            NoDuplicates(after.pending) && forall id :: id in after.pending <==> IsRunning(after, id)
  {
    RemoveDrops(t.pending, e.id);
    forall id {
      FindAfterUpdate(t.calls, i, e, id);
    }
  }

  lemma CallsStayUnique(calls: seq<Entry>, i: nat, e: Entry)
    requires UniqueCalls(calls) && i <= |calls| && FindCall(calls, e.id) == i
    ensures UniqueCalls(if i < |calls| then calls[i := e] else calls + [e])
  {
  }

  lemma InvokeKeepsValid(t: Tools, n: Node, at: Time)
    requires Valid(t) && n.Invocation?
    ensures Valid(Invoke(t, n, at))
  {
    var id := CallId(t, n);
    var i := FindCall(t.calls, id);
    if i < |t.calls| || |t.calls| < MAX_TOOLS {
      var e := NewEntry(n, id, if i < |t.calls| then Some(t.calls[i]) else None, at);
      CallsStayUnique(t.calls, i, e);
      PendingFollowsStatus(t, i, e);
      forall r | r in t.results ensures Known(Invoke(t, n, at), t.results[r]) {
        FindAfterUpdate(t.calls, i, e, t.results[r]);
      }
    }
  }

  lemma {:induction false} SelectExactly(t: Tools, n: Node, byResource: bool, keys: seq<string>)
    requires n.ToolResult?
    ensures forall k :: k in Select(t, n, byResource, keys) <==> k in keys && Fits(t, n, byResource, k)
  {
    if keys != [] {
      SelectExactly(t, n, byResource, keys[..|keys| - 1]);
    }
  }

  lemma PendingIsKnown(t: Tools, key: string)
    requires Valid(t) && key in t.pending
    ensures Known(t, key)
  {
    assert IsRunning(t, key);
  }

  /** A chosen call exists. */
  lemma ChosenIsKnown(t: Tools, n: Node)
    requires Valid(t) && n.ToolResult? && Chosen(t, n).Some?
    ensures Known(t, Chosen(t, n).value)
  {
    SelectExactly(t, n, true, t.pending);
    SelectExactly(t, n, false, t.pending);
    if !(n.id != "" && n.id in t.results) && !Known(t, n.target) {
      PendingIsKnown(t, Chosen(t, n).value);
    }
  }

  lemma ResultsStayKnown(t: Tools, after: Tools, i: nat, e: Entry)
    requires Valid(t) && i < |t.calls| && FindCall(t.calls, e.id) == i && after.calls == t.calls[i := e]
    requires forall r :: r in after.results ==>
               after.results[r] == e.id || (r in t.results && after.results[r] == t.results[r])
    ensures forall r :: r in after.results ==> Known(after, after.results[r])
  {
    forall r | r in after.results ensures Known(after, after.results[r]) {
      FindAfterUpdate(t.calls, i, e, after.results[r]);
    }
  }

  lemma UpdateKeepsValid(t: Tools, i: nat, e: Entry, results: map<string, string>)
    requires Valid(t) && i < |t.calls| && t.calls[i].id == e.id && !e.status.Running?
    requires |results| <= MAX_TOOLS && forall r :: r in results ==>
               results[r] == e.id || (r in t.results && results[r] == t.results[r])
    ensures Valid(t.(calls := t.calls[i := e], pending := Remove(t.pending, e.id), results := results))
  {
    var after := t.(calls := t.calls[i := e], pending := Remove(t.pending, e.id), results := results);
    FindIsUnique(t.calls, i);
    CallsStayUnique(t.calls, i, e);
    PendingFollowsStatus(t, i, e);
    ResultsStayKnown(t, after, i, e);
  }

  lemma AnswerKeepsValid(env: Naming, t: Tools, n: Node)
    requires Valid(t) && n.ToolResult?
    ensures Valid(Answer(env, t, n))
  {
    if Chosen(t, n).Some? {
      ChosenIsKnown(t, n);
      var i := FindCall(t.calls, Chosen(t, n).value);
      UpdateKeepsValid(t, i, Answered(env, n, ResultAction(t, n), t.calls[i]), Answer(env, t, n).results);
    }
  }

  lemma ObserveKeepsValid(env: Naming, t: Tools, n: Node, at: Time)
    requires Valid(t)
    ensures Valid(Observe(env, t, n, at))
  {
    match n
    case Invocation(_, _, _, _, _, _, _, _, _, _) => InvokeKeepsValid(t, n, at);
    case ToolResult(_, _, _, _, _, _, _) => AnswerKeepsValid(env, t, n);
    case OtherNode =>
  }

  lemma {:induction false} ObserveAllKeepsValid(env: Naming, t: Tools, seen: seq<Seen>)
    requires Valid(t)
    ensures Valid(ObserveAll(env, t, seen))
  {
    if seen != [] {
      var n := |seen| - 1;
      ObserveAllKeepsValid(env, t, seen[..n]);
      ObserveKeepsValid(env, ObserveAll(env, t, seen[..n]), seen[n].node, seen[n].at);
    }
  }

  /** For every sequence of observed nodes: calls are unique and bounded, and the pending list holds exactly
      the running calls, once each. */
  lemma ObserveAllIsValid(env: Naming, seen: seq<Seen>)
    ensures Valid(ObserveAll(env, NoTools(), seen))
  {
    ObserveAllKeepsValid(env, NoTools(), seen);
  }

  // ---------------------------------------------------------------- a result answers one call

  /** A result changes exactly the call it is matched to: that call is finished with the result's value and
      leaves the pending list. Every other call is untouched, and an unmatched result changes nothing. */
  lemma ResultAnswersOneCall(env: Naming, t: Tools, n: Node)
    requires Valid(t) && n.ToolResult?
    ensures Chosen(t, n).None? ==> Answer(env, t, n) == t
    ensures Chosen(t, n).Some? ==>
              var key, after := Chosen(t, n).value, Answer(env, t, n);
              Known(t, key) && |after.calls| == |t.calls| &&
              (forall i :: 0 <= i < |t.calls| && t.calls[i].id != key ==> after.calls[i] == t.calls[i]) &&
              (forall i :: 0 <= i < |t.calls| && t.calls[i].id == key ==>
                 after.calls[i].id == key && FinishedCall(after.calls[i].status) && after.calls[i].result == n.value &&
                 (after.calls[i].status.Error? <==> n.isError) && after.calls[i].arguments == t.calls[i].arguments) &&
              (forall id :: id in after.pending <==> id in t.pending && id != key)
  {
    if Chosen(t, n).Some? {
      ChosenIsKnown(t, n);
      RemoveDrops(t.pending, Chosen(t, n).value);
    }
  }

  lemma {:induction false} SelectNothing(t: Tools, n: Node, byResource: bool, keys: seq<string>)
    requires n.ToolResult? && forall k :: k in keys ==> !Fits(t, n, byResource, k)
    ensures Select(t, n, byResource, keys) == []
  {
    if keys != [] {
      SelectNothing(t, n, byResource, keys[..|keys| - 1]);
    }
  }

  lemma TwoMembers(keys: seq<string>, a: string, b: string)
    requires a in keys && b in keys && a != b
    ensures |keys| != 1
  {
  }

  /** Two pending calls that fit a result equally well keep it open. */
  lemma AmbiguousResultIsIgnored(env: Naming, t: Tools, n: Node, a: string, b: string)
    requires Valid(t) && n.ToolResult? && !(n.id != "" && n.id in t.results) && !Known(t, n.target)
    requires a != b && a in t.pending && b in t.pending && SameAction(t, n, a) && SameAction(t, n, b)
    requires SameResource(t, n, a) <==> SameResource(t, n, b)
    requires !SameResource(t, n, a) ==> forall k :: k in t.pending ==> !SameResource(t, n, k)
    ensures Answer(env, t, n) == t
  {
    SelectExactly(t, n, true, t.pending);
    SelectExactly(t, n, false, t.pending);
    TwoMembers(ByAction(t, n), a, b);
    if SameResource(t, n, a) {
      TwoMembers(ByResource(t, n), a, b);
    } else {
      SelectNothing(t, n, true, t.pending);
    }
  }

  lemma ResultsAreKept(env: Naming, t: Tools, n: Node, at: Time, r: string)
    requires r in t.results && r != ""
    ensures r in Observe(env, t, n, at).results && Observe(env, t, n, at).results[r] == t.results[r]
  {
  }

  lemma ObserveKeepsRecord(env: Naming, t: Tools, n: Node, at: Time, r: string)
    requires Valid(t) && r in t.results && r != ""
    ensures Valid(Observe(env, t, n, at))
    ensures r in Observe(env, t, n, at).results && Observe(env, t, n, at).results[r] == t.results[r]
  {
    ObserveKeepsValid(env, t, n, at);
    ResultsAreKept(env, t, n, at, r);
  }

  /** A recorded result id answers the same call for ever. */
  lemma {:induction false} RecordedResultIsSticky(env: Naming, t: Tools, seen: seq<Seen>, r: string)
    requires Valid(t) && r in t.results && r != ""
    ensures Valid(ObserveAll(env, t, seen))
    ensures r in ObserveAll(env, t, seen).results && ObserveAll(env, t, seen).results[r] == t.results[r]
    ensures forall n: Node :: n.ToolResult? && n.id == r ==> Chosen(ObserveAll(env, t, seen), n) == Some(t.results[r])
  {
    if seen != [] {
      var n := |seen| - 1;
      RecordedResultIsSticky(env, t, seen[..n], r);
      ObserveKeepsRecord(env, ObserveAll(env, t, seen[..n]), seen[n].node, seen[n].at, r);
    }
  }

  /** A call keeps its id and first sight, and its arguments are never blanked. */
  predicate Grows(e: Entry, after: Entry) {
    after.id == e.id && after.observedAt == e.observedAt && (e.arguments != "" ==> after.arguments != "")
  }

  /** One node also never makes a finished call run again. */
  lemma ObserveGrows(env: Naming, t: Tools, n: Node, at: Time, i: nat)
    requires i < |t.calls|
    ensures i < |Observe(env, t, n, at).calls| && Grows(t.calls[i], Observe(env, t, n, at).calls[i])
    ensures FinishedCall(t.calls[i].status) ==> !Observe(env, t, n, at).calls[i].status.Running?
  {
  }

  /** Over every node sequence each call keeps its place, its id and its first sight, and its arguments are never
      blanked. */
  lemma {:induction false} CallsOnlyGrow(env: Naming, t: Tools, seen: seq<Seen>, i: nat)
    requires i < |t.calls|
    ensures i < |ObserveAll(env, t, seen).calls| && Grows(t.calls[i], ObserveAll(env, t, seen).calls[i])
  {
    if seen != [] {
      var n := |seen| - 1;
      CallsOnlyGrow(env, t, seen[..n], i);
      ObserveGrows(env, ObserveAll(env, t, seen[..n]), seen[n].node, seen[n].at, i);
    }
  }

  /** The next node is an invocation of call i that calls it observed. */
  predicate Relabels(t: Tools, n: Node, i: nat)
    requires i < |t.calls|
  {
    n.Invocation? && n.status == Some(Observed) && CallId(t, n) == t.calls[i].id
  }

  lemma OneNodeKeepsAnswerIff(env: Naming, t: Tools, n: Node, at: Time, i: nat)
    requires UniqueCalls(t.calls) && i < |t.calls| && FinishedCall(t.calls[i].status)
    ensures var after := Observe(env, t, n, at).calls;
            i < |after| && (FinishedCall(after[i].status) <==> !Relabels(t, n, i))
  {
    FindIsUnique(t.calls, i);
  }

  function Before(env: Naming, t: Tools, seen: seq<Seen>, k: nat): Tools
    requires k <= |seen|
  {
    ObserveAll(env, t, seen[..k])
  }

  /** Node k of a sequence calls the finished call i observed. */
  predicate RelabelsAt(env: Naming, t: Tools, seen: seq<Seen>, k: nat, i: nat)
    requires k < |seen|
  {
    i < |Before(env, t, seen, k).calls| && Relabels(Before(env, t, seen, k), seen[k].node, i)
  }

  predicate AnsweredAt(env: Naming, t: Tools, seen: seq<Seen>, k: nat, i: nat)
    requires k <= |seen|
  {
    i < |Before(env, t, seen, k).calls| && FinishedCall(Before(env, t, seen, k).calls[i].status)
  }

  lemma NextIsAnsweredIff(env: Naming, t: Tools, seen: seq<Seen>, k: nat, i: nat)
    requires Valid(t) && k < |seen| && AnsweredAt(env, t, seen, k, i)
    ensures AnsweredAt(env, t, seen, k + 1, i) <==> !RelabelsAt(env, t, seen, k, i)
  {
    assert seen[..k + 1][..k] == seen[..k];
    ObserveAllKeepsValid(env, t, seen[..k]);
    OneNodeKeepsAnswerIff(env, Before(env, t, seen, k), seen[k].node, seen[k].at, i);
  }

  lemma {:induction false} StaysAnsweredUntil(env: Naming, t: Tools, seen: seq<Seen>, n: nat, i: nat)
    requires Valid(t) && n <= |seen| && AnsweredAt(env, t, seen, 0, i)
    requires forall k :: 0 <= k < n ==> !RelabelsAt(env, t, seen, k, i)
    ensures AnsweredAt(env, t, seen, n, i)
  {
    if n > 0 {
      StaysAnsweredUntil(env, t, seen, n - 1, i);
      NextIsAnsweredIff(env, t, seen, n - 1, i);
    }
  }

  /** A finished call stays finished throughout a node sequence exactly when no node relabels it as observed. */
  lemma StaysAnsweredIff(env: Naming, t: Tools, seen: seq<Seen>, i: nat)
    requires Valid(t) && i < |t.calls| && FinishedCall(t.calls[i].status)
    ensures (forall n :: 0 <= n <= |seen| ==> AnsweredAt(env, t, seen, n, i)) <==>
            (forall k :: 0 <= k < |seen| ==> !RelabelsAt(env, t, seen, k, i))
  {
    if forall n :: 0 <= n <= |seen| ==> AnsweredAt(env, t, seen, n, i) {
      forall k | 0 <= k < |seen| ensures !RelabelsAt(env, t, seen, k, i) {
        NextIsAnsweredIff(env, t, seen, k, i);
      }
    }
    if forall k :: 0 <= k < |seen| ==> !RelabelsAt(env, t, seen, k, i) {
      forall n | 0 <= n <= |seen| ensures AnsweredAt(env, t, seen, n, i) {
        StaysAnsweredUntil(env, t, seen, n, i);
      }
    }
  }

  function Replayed(id: string, status: Status): Node {
    Invocation(id, "", "", "", "", Some(status), false, "", "", "")
  }

  /** Two replayed invocations, one observed and one running, make any finished call run again. */
  lemma ReopenExample(env: Naming, t: Tools, i: nat, at: Time)
    requires UniqueCalls(t.calls) && i < |t.calls| && FinishedCall(t.calls[i].status) && t.calls[i].id != ""
    ensures var seen := [Seen(Replayed(t.calls[i].id, Observed), at), Seen(Replayed(t.calls[i].id, Running), at)];
            i < |ObserveAll(env, t, seen).calls| && ObserveAll(env, t, seen).calls[i].status.Running?
  {
    var first, second := Seen(Replayed(t.calls[i].id, Observed), at), Seen(Replayed(t.calls[i].id, Running), at);
    var once := Observe(env, t, first.node, at);
    FindIsUnique(t.calls, i);
    assert once.calls == t.calls[i := once.calls[i]] && once.calls[i].id == t.calls[i].id;
    FindIsUnique(once.calls, i);
    assert [first, second][..1] == [first] && [first][..0] == [];
    assert ObserveAll(env, t, [first]) == once;
    assert ObserveAll(env, t, [first, second]) == Observe(env, once, second.node, at);
  }

  // ---------------------------------------------------------------- the collector

  class ToolEventCollector {
    const env: Naming
    var calls: seq<Entry>
    var pending: seq<string>
    var results: map<string, string>
    var recipients: map<string, string>
    var resources: map<string, string>

    ghost function Current(): Tools
      reads this
    {
      Tools(calls, pending, results, recipients, resources)
    }

    constructor (env: Naming)
      ensures this.env == env && Current() == NoTools() && Valid(Current())
    {
      this.env := env;
      calls, pending, results, recipients, resources := [], [], map[], map[], map[];
    }

    method Locate(id: string) returns (i: nat)
      ensures i == FindCall(calls, id)
    {
      i := 0;
      while i < |calls| && calls[i].id != id
        invariant 0 <= i <= |calls| && FindCall(calls, id) == FindCall(calls, id, i)
      {
        i := i + 1;
      }
    }

    method RemovePending(id: string)
      modifies this`pending
      ensures pending == Remove(old(pending), id)
    {
      var i := 0;
      while i < |pending| && pending[i] != id
        invariant 0 <= i <= |pending| && pending == old(pending)
        invariant Remove(pending, id) == pending[..i] + Remove(pending[i..], id)
      {
        assert pending[i..][1..] == pending[i + 1..];
        i := i + 1;
      }
      if i < |pending| {
        assert pending[i..][1..] == pending[i + 1..];
        pending := pending[..i] + pending[i + 1..];
      } else {
        assert pending[i..] == [] && pending[..i] == pending;
      }
    }

    method ObserveInvocation(n: Node, at: Time)
      requires n.Invocation?
      modifies this
      ensures Current() == Invoke(old(Current()), n, at)
    {
      var id := if n.id != "" then n.id else "tool-" + Dec(|calls|);
      var i := Locate(id);
      if i == |calls| && |calls| >= MAX_TOOLS {
        return;
      }
      var was := if i < |calls| then Some(calls[i]) else None;
      var entry := NewEntry(n, id, was, at);
      calls := if i < |calls| then calls[i := entry] else calls + [entry];
      recipients := recipients[id := n.recipient];
      if n.resource != "" {
        resources := resources[id := n.resource];
      }
      if entry.status.Running? {
        if id !in pending {
          pending := pending + [id];
        }
      } else {
        RemovePending(id);
      }
    }

    /** The two candidate lists, in one pass over the pending calls. */
    method Candidates(n: Node) returns (same: seq<string>, matching: seq<string>)
      requires n.ToolResult?
      ensures same == ByResource(Current(), n) && matching == ByAction(Current(), n)
    {
      same, matching := [], [];
      var t := Tools(calls, pending, results, recipients, resources);
      for i := 0 to |pending|
        invariant same == Select(t, n, true, pending[..i]) && matching == Select(t, n, false, pending[..i])
      {
        assert pending[..i + 1][..i] == pending[..i];
        if SameResource(t, n, pending[i]) {
          same := same + [pending[i]];
        }
        if SameAction(t, n, pending[i]) {
          matching := matching + [pending[i]];
        }
      }
      assert pending[..|pending|] == pending;
    }

    /** The call a result is matched to. */
    method Match(n: Node) returns (key: Option<string>)
      requires n.ToolResult?
      ensures key == Chosen(Current(), n)
    {
      var same, matching := Candidates(n);
      var target := Locate(n.target);
      if n.id != "" && n.id in results {
        key := Some(results[n.id]);
      } else if target < |calls| {
        key := Some(n.target);
      } else if |same| == 1 {
        key := Some(same[0]);
      } else if |matching| == 1 &&
      (n.resource == "" || Lookup(resources, matching[0]) == "" || resources[matching[0]] == n.resource) {
        key := Some(matching[0]);
      } else {
        key := None;
      }
    }

    method ObserveResult(n: Node)
      requires n.ToolResult? && Valid(Current())
      modifies this
      ensures Current() == Answer(env, old(Current()), n)
    {
      var key := Match(n);
      if key.None? {
        return;
      }
      ChosenIsKnown(Current(), n);
      var target := Locate(n.target);
      var action := if target < |calls| then calls[target].action else n.action;
      var i := Locate(key.value);
      if n.id != "" && |results| < MAX_TOOLS {
        results := results[n.id := key.value];
      }
      calls := calls[i := Answered(env, n, action, calls[i])];
      RemovePending(key.value);
    }
  }
}
