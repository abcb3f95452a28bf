/** Merging tool-call snapshots by invocation id. */
module ToolCalls {
  import opened Tables

  const MAX_CALLS := 128
  const MAX_JSON := 512_000

  /** A saved or observed call: one entry per key, None when the key is absent. */
  datatype Call = Call(
    id: Option<string>, status: Option<string>, arguments: Option<string>, result: Option<string>,
    error: Option<string>, observedAt: Option<Time>, connector: Option<string>, action: Option<string>)

  /** A stored JSON column after decoding. */
  datatype StoredCalls = UnreadableCalls | Calls(calls: seq<Call>)

  /** `same(dom, stream)`: a rendered heading and a stream invocation describe one activity. */
  type Activity = (Call, Call) -> bool

  /** Length of the JSON text of a list of calls. */
  type Sizing = seq<Call> -> nat

  function Ident(c: Call): string {
    if c.id.Some? then c.id.value else "None"
  }

  /** A heading rendered by the page, with only a positional identity. */
  predicate Heading(c: Call) {
    c.id.Some? && HasPrefix("dom-tool-", c.id.value)
  }

  predicate Filled(f: Option<string>) {
    f.Some? && f.value != ""
  }

  predicate Timed(t: Option<Time>) {
    t.Some? && t.value != 0.0
  }

  predicate Finished(c: Call) {
    c.status == Some("completed") || c.status == Some("error")
  }

  function Deserialize(stored: StoredCalls): seq<Call> {
    match stored
    case UnreadableCalls => []
    case Calls(calls) => if |calls| <= MAX_CALLS then calls else calls[..MAX_CALLS]
  }

  // ---------------------------------------------------------------- upgrading headings

  function Streams(calls: seq<Call>): (r: seq<Call>)
    ensures forall c :: c in r <==> c in calls && !Heading(c)
  {
    if calls == [] then []
    else
      var rest := Streams(calls[1..]);
      if Heading(calls[0]) then rest else [calls[0]] + rest
  }

  /** The first stream call that a heading can be replaced by. */
  function FirstSame(same: Activity, heading: Call, streams: seq<Call>): (r: Option<Call>)
    ensures r.Some? ==> r.value in streams && same(heading, r.value)
    ensures r.None? ==> forall s :: s in streams ==> !same(heading, s)
  {
    if streams == [] then None
    else if same(heading, streams[0]) then Some(streams[0])
    else FirstSame(same, heading, streams[1..])
  }

  function Upgrade(same: Activity, streams: seq<Call>, c: Call): Call {
    if !Heading(c) then c
    else match FirstSame(same, c, streams)
      case None => c
      case Some(s) => if Timed(c.observedAt) then s.(observedAt := c.observedAt) else s
  }

  function Idents(calls: seq<Call>): set<string> {
    set i | 0 <= i < |calls| :: Ident(calls[i])
  }

  /** Saved calls with headings upgraded in place, the first call of each id kept. */
  function Upgraded(same: Activity, streams: seq<Call>, saved: seq<Call>): seq<Call> {
    if saved == [] then []
    else
      var prior := Upgraded(same, streams, saved[..|saved| - 1]);
      var c := Upgrade(same, streams, saved[|saved| - 1]);
      if Ident(c) in Idents(prior) then prior else prior + [c]
  }

  /** Incoming calls minus headings a stream call already accounts for. */
  function Relevant(same: Activity, streams: seq<Call>, incoming: seq<Call>): (r: seq<Call>)
    ensures forall c :: c in r <==> c in incoming && !(Heading(c) && FirstSame(same, c, streams).Some?)
  {
    if incoming == [] then []
    else
      var rest := Relevant(same, streams, incoming[1..]);
      if Heading(incoming[0]) && FirstSame(same, incoming[0], streams).Some? then rest else [incoming[0]] + rest
  }

  // ---------------------------------------------------------------- refreshing

  function Or<T>(a: Option<T>, b: Option<T>): Option<T> {
    if a.Some? then a else b
  }

  /** A text field of a refreshed call: an empty observation does not blank the saved one. */
  function Field(was: Option<string>, now: Option<string>): Option<string> {
    if !Filled(now) && was.Some? then was else Or(now, was)
  }

  function Refresh(was: Call, now: Call): Call {
    Call(Or(now.id, was.id),
         if Finished(was) && now.status == Some("running") then was.status else Or(now.status, was.status),
         Field(was.arguments, now.arguments), Field(was.result, now.result), Field(was.error, now.error),
         if Timed(was.observedAt) then was.observedAt else Or(now.observedAt, was.observedAt),
         Or(now.connector, was.connector), Or(now.action, was.action))
  }

  function IndexOf(calls: seq<Call>, ident: string): (i: nat)
    ensures i <= |calls|
    ensures i < |calls| ==> Ident(calls[i]) == ident
    ensures i == |calls| <==> ident !in Idents(calls)
    ensures forall k :: 0 <= k < i ==> Ident(calls[k]) != ident
  {
    if calls == [] then 0
    else if Ident(calls[0]) == ident then assert Ident(calls[0]) in Idents(calls); 0
    else
      assert Idents(calls) == {Ident(calls[0])} + Idents(calls[1..]) by {
        assert forall k :: 0 <= k < |calls[1..]| ==> calls[1..][k] == calls[k + 1];
      }
      1 + IndexOf(calls[1..], ident)
  }

  function MergeCall(merged: seq<Call>, c: Call): seq<Call> {
    var i := IndexOf(merged, Ident(c));
    if i < |merged| then merged[i := Refresh(merged[i], c)]
    else if |merged| < MAX_CALLS then merged + [c]
    else merged
  }

  function MergeCalls(merged: seq<Call>, incoming: seq<Call>): seq<Call>
    decreases |incoming|
  {
    if incoming == [] then merged else MergeCalls(MergeCall(merged, incoming[0]), incoming[1..])
  }

  /** The longest prefix of at most 128 calls whose every prefix fits the JSON bound. */
  function Serialize(size: Sizing, calls: seq<Call>, n: nat): seq<Call>
    requires n <= |calls|
    decreases |calls| - n
  {
    if n == |calls| || n >= MAX_CALLS || size(calls[..n + 1]) > MAX_JSON then calls[..n]
    else Serialize(size, calls, n + 1)
  }

  /** The merged calls before they are bounded for storage. */
  function Merged(same: Activity, saved: seq<Call>, incoming: seq<Call>): seq<Call> {
    var streams := Streams(saved + incoming);
    MergeCalls(Upgraded(same, streams, saved), Relevant(same, streams, incoming))
  }

  function MergeToolCalls(same: Activity, size: Sizing, previous: StoredCalls, incoming: seq<Call>): StoredCalls {
    if incoming == [] then previous
    else Calls(Serialize(size, Merged(same, Deserialize(previous), incoming), 0))
  }

  // ---------------------------------------------------------------- ids are unique and invocations survive

  ghost predicate Unique(calls: seq<Call>) {
    forall i, j :: 0 <= i < j < |calls| ==> Ident(calls[i]) != Ident(calls[j])
  }

  lemma IdentsAppend(calls: seq<Call>, c: Call)
    ensures Idents(calls + [c]) == Idents(calls) + {Ident(c)}
    ensures Unique(calls) && Ident(c) !in Idents(calls) ==> Unique(calls + [c])
  {
    var all := calls + [c];
    assert all[|calls|] == c;
    forall x | x in Idents(calls) ensures x in Idents(all) {
      var i :| 0 <= i < |calls| && Ident(calls[i]) == x;
      assert all[i] == calls[i];
    }
    forall i | 0 <= i < |calls| ensures Ident(calls[i]) in Idents(calls) {}
  }

  lemma RefreshKeepsIdent(was: Call, now: Call)
    requires Ident(was) == Ident(now)
    ensures Ident(Refresh(was, now)) == Ident(was)
  {
  }

  lemma UpgradedNext(same: Activity, streams: seq<Call>, saved: seq<Call>)
    requires saved != [] && Unique(Upgraded(same, streams, saved[..|saved| - 1]))
    ensures var prior := Upgraded(same, streams, saved[..|saved| - 1]);
            var c := Upgrade(same, streams, saved[|saved| - 1]);
            Unique(Upgraded(same, streams, saved)) && |Upgraded(same, streams, saved)| <= |prior| + 1 &&
            Idents(Upgraded(same, streams, saved)) == Idents(prior) + {Ident(c)}
  {
    IdentsAppend(Upgraded(same, streams, saved[..|saved| - 1]), Upgrade(same, streams, saved[|saved| - 1]));
  }

  lemma {:induction false} UpgradedFacts(same: Activity, streams: seq<Call>, saved: seq<Call>)
    ensures Unique(Upgraded(same, streams, saved)) && |Upgraded(same, streams, saved)| <= |saved|
    ensures forall i :: 0 <= i < |saved| ==>
              Ident(Upgrade(same, streams, saved[i])) in Idents(Upgraded(same, streams, saved))
  {
    if saved != [] {
      var n := |saved| - 1;
      UpgradedFacts(same, streams, saved[..n]);
      assert forall i :: 0 <= i < n ==> saved[..n][i] == saved[i];
      UpgradedNext(same, streams, saved);
    }
  }

  lemma MergeCallFacts(merged: seq<Call>, c: Call)
    requires Unique(merged)
    ensures Unique(MergeCall(merged, c))
    ensures Idents(MergeCall(merged, c)) ==
              if Ident(c) in Idents(merged) || |merged| < MAX_CALLS then Idents(merged) + {Ident(c)} else Idents(merged)
    ensures |merged| <= |MergeCall(merged, c)|
    ensures |merged| <= MAX_CALLS ==> |MergeCall(merged, c)| <= MAX_CALLS
  {
    var i := IndexOf(merged, Ident(c));
    if i < |merged| {
      RefreshKeepsIdent(merged[i], c);
      var after := MergeCall(merged, c);
      assert forall k :: 0 <= k < |merged| ==> Ident(after[k]) == Ident(merged[k]);
      assert Idents(after) == Idents(merged);
    } else {
      IdentsAppend(merged, c);
    }
  }

  /** Every id already merged stays, and every incoming id is added unless the list is full. */
  lemma {:induction false} MergeCallsFacts(merged: seq<Call>, incoming: seq<Call>)
    requires Unique(merged)
    ensures Unique(MergeCalls(merged, incoming))
    ensures Idents(merged) <= Idents(MergeCalls(merged, incoming))
    ensures |MergeCalls(merged, incoming)| >= |merged|
    ensures |merged| <= MAX_CALLS ==> |MergeCalls(merged, incoming)| <= MAX_CALLS
    ensures |MergeCalls(merged, incoming)| < MAX_CALLS ==> Idents(incoming) <= Idents(MergeCalls(merged, incoming))
    decreases |incoming|
  {
    if incoming != [] {
      MergeCallFacts(merged, incoming[0]);
      MergeCallsFacts(MergeCall(merged, incoming[0]), incoming[1..]);
      assert Idents(incoming) == {Ident(incoming[0])} + Idents(incoming[1..]) by {
        assert forall k :: 0 <= k < |incoming[1..]| ==> incoming[1..][k] == incoming[k + 1];
        forall x | x in Idents(incoming) ensures x in {Ident(incoming[0])} + Idents(incoming[1..]) {
          var k :| 0 <= k < |incoming| && Ident(incoming[k]) == x;
          if k > 0 { assert incoming[1..][k - 1] == incoming[k]; }
        }
      }
    }
  }

  lemma {:induction false} SerializeIsPrefix(size: Sizing, calls: seq<Call>, n: nat)
    requires n <= |calls|
    ensures Serialize(size, calls, n) <= calls
    ensures (|calls| <= MAX_CALLS && forall k :: n < k <= |calls| ==> size(calls[..k]) <= MAX_JSON) ==>
              Serialize(size, calls, n) == calls
    decreases |calls| - n
  {
    if n == |calls| || n >= MAX_CALLS || size(calls[..n + 1]) > MAX_JSON {
      assert n == |calls| ==> calls[..n] == calls;
    } else {
      SerializeIsPrefix(size, calls, n + 1);
    }
  }

  lemma IdentsFirst(calls: seq<Call>)
    requires calls != []
    ensures Idents(calls) == {Ident(calls[0])} + Idents(calls[1..])
  {
    assert forall k :: 0 <= k < |calls[1..]| ==> calls[1..][k] == calls[k + 1];
    forall x | x in Idents(calls) ensures x in {Ident(calls[0])} + Idents(calls[1..]) {
      var k :| 0 <= k < |calls| && Ident(calls[k]) == x;
      if k > 0 { assert calls[1..][k - 1] == calls[k]; }
    }
  }

  lemma {:induction false} UniqueSize(calls: seq<Call>)
    requires Unique(calls)
    ensures |Idents(calls)| == |calls|
  {
    if calls != [] {
      var n := |calls| - 1;
      UniqueSize(calls[..n]);
      assert calls == calls[..n] + [calls[n]];
      IdentsAppend(calls[..n], calls[n]);
      assert forall i :: 0 <= i < n ==> calls[..n][i] == calls[i];
      assert Ident(calls[n]) !in Idents(calls[..n]);
    }
  }

  /** Every id is merged exactly when there are no more than 128 different ones. */
  lemma {:induction false} AllMergedIff(merged: seq<Call>, incoming: seq<Call>)
    requires Unique(merged) && |merged| <= MAX_CALLS
    ensures Idents(MergeCalls(merged, incoming)) <= Idents(merged) + Idents(incoming)
    ensures Idents(MergeCalls(merged, incoming)) == Idents(merged) + Idents(incoming) <==>
              |Idents(merged) + Idents(incoming)| <= MAX_CALLS
    decreases |incoming|
  {
    if incoming == [] {
      UniqueSize(merged);
      assert Idents(merged) + Idents(incoming) == Idents(merged);
    } else {
      var next := MergeCall(merged, incoming[0]);
      MergeCallFacts(merged, incoming[0]);
      AllMergedIff(next, incoming[1..]);
      IdentsFirst(incoming);
      UniqueSize(merged);
      var all := Idents(merged) + Idents(incoming);
      if Ident(incoming[0]) in Idents(merged) || |merged| < MAX_CALLS {
        assert all == Idents(next) + Idents(incoming[1..]);
      } else {
        MergeCallsFacts(next, incoming[1..]);
        UniqueSize(MergeCalls(next, incoming[1..]));
        SubsetSize(Idents(merged) + {Ident(incoming[0])}, all);
        assert |Idents(merged) + {Ident(incoming[0])}| == MAX_CALLS + 1;
      }
    }
  }

  /** The ids a merge is asked to keep: those of the upgraded saved calls and of the incoming ones that are not
      headings of a stream call. */
  function Wanted(same: Activity, saved: seq<Call>, incoming: seq<Call>): set<string> {
    var streams := Streams(saved + incoming);
    Idents(Upgraded(same, streams, saved)) + Idents(Relevant(same, streams, incoming))
  }

  /** Before the size bound, a merge keeps every id it is asked to keep exactly when they fit the cap. */
  lemma MergeKeepsAllIff(same: Activity, saved: seq<Call>, incoming: seq<Call>)
    requires |saved| <= MAX_CALLS
    ensures Idents(Merged(same, saved, incoming)) == Wanted(same, saved, incoming) <==>
              |Wanted(same, saved, incoming)| <= MAX_CALLS
  {
    var streams := Streams(saved + incoming);
    UpgradedFacts(same, streams, saved);
    AllMergedIff(Upgraded(same, streams, saved), Relevant(same, streams, incoming));
  }

  /** Every stream invocation, saved or incoming, is asked for; a heading can only give way to a stream call for
      the same activity. */
  lemma InvocationsAreWanted(same: Activity, saved: seq<Call>, incoming: seq<Call>, c: Call)
    requires c in saved + incoming && !Heading(c)
    ensures Ident(c) in Wanted(same, saved, incoming)
  {
    var streams := Streams(saved + incoming);
    UpgradedFacts(same, streams, saved);
    if c in saved {
      var i :| 0 <= i < |saved| && saved[i] == c;
      assert Upgrade(same, streams, saved[i]) == c;
    } else {
      assert c in Relevant(same, streams, incoming);
      var r := Relevant(same, streams, incoming);
      var i :| 0 <= i < |r| && r[i] == c;
      assert Ident(r[i]) in Idents(r);
    }
  }

  lemma MergedIsUnique(same: Activity, saved: seq<Call>, incoming: seq<Call>)
    requires |saved| <= MAX_CALLS
    ensures Unique(Merged(same, saved, incoming)) && |Merged(same, saved, incoming)| <= MAX_CALLS
  {
    var streams := Streams(saved + incoming);
    UpgradedFacts(same, streams, saved);
    MergeCallsFacts(Upgraded(same, streams, saved), Relevant(same, streams, incoming));
  }

  /** Within the caps, the caps themselves included, the result still holds every saved stream invocation and
      every incoming one. */
  lemma MergeLosesNoInvocation(same: Activity, size: Sizing, previous: StoredCalls, incoming: seq<Call>, c: Call)
    requires incoming != []
    requires c in Deserialize(previous) + incoming && !Heading(c)
    requires |Wanted(same, Deserialize(previous), incoming)| <= MAX_CALLS
    requires var merged := Merged(same, Deserialize(previous), incoming);
             forall k :: 0 < k <= |merged| ==> size(merged[..k]) <= MAX_JSON
    ensures var out := MergeToolCalls(same, size, previous, incoming);
            out.Calls? && Unique(out.calls) && Ident(c) in Idents(out.calls)
  {
    var saved := Deserialize(previous);
    MergedIsUnique(same, saved, incoming);
    MergeKeepsAllIff(same, saved, incoming);
    InvocationsAreWanted(same, saved, incoming, c);
    SerializeIsPrefix(size, Merged(same, saved, incoming), 0);
  }

  lemma PrefixIsUnique(part: seq<Call>, whole: seq<Call>)
    requires part <= whole && Unique(whole)
    ensures Unique(part)
  {
    assert forall i :: 0 <= i < |part| ==> part[i] == whole[i];
  }

  lemma MergeIsUnique(same: Activity, size: Sizing, previous: StoredCalls, incoming: seq<Call>)
    requires incoming != []
    ensures var out := MergeToolCalls(same, size, previous, incoming);
            out.Calls? && Unique(out.calls) && |out.calls| <= MAX_CALLS
  {
    var merged := Merged(same, Deserialize(previous), incoming);
    MergedIsUnique(same, Deserialize(previous), incoming);
    SerializeIsPrefix(size, merged, 0);
    PrefixIsUnique(Serialize(size, merged, 0), merged);
  }

  // ---------------------------------------------------------------- what one merge does to one invocation

  /** The first saved call that becomes the entry for this id. */
  function Source(same: Activity, streams: seq<Call>, saved: seq<Call>, ident: string): (i: nat)
    ensures i <= |saved|
    ensures i < |saved| ==> Ident(Upgrade(same, streams, saved[i])) == ident
    ensures forall k :: 0 <= k < i ==> Ident(Upgrade(same, streams, saved[k])) != ident
  {
    if saved == [] || Ident(Upgrade(same, streams, saved[0])) == ident then 0
    else 1 + Source(same, streams, saved[1..], ident)
  }

  /** A heading saved before an invocation is upgraded to the incoming snapshot of that same invocation,
      because the saved snapshot does not read as the same activity: the saved one is then discarded. */
  predicate Displaced(same: Activity, saved: seq<Call>, incoming: seq<Call>, ident: string) {
    var streams := Streams(saved + incoming);
    var i := Source(same, streams, saved, ident);
    i < |saved| && Heading(saved[i]) &&
    var s := FirstSame(same, saved[i], streams);
    s.Some? && s.value !in saved
  }

  lemma EarlierEntryStays(prior: seq<Call>, c: Call, ident: string)
    requires IndexOf(prior, ident) < |prior|
    ensures IndexOf(prior + [c], ident) == IndexOf(prior, ident)
  {
    var i, k := IndexOf(prior, ident), IndexOf(prior + [c], ident);
    assert (prior + [c])[i] == prior[i];
    assert k < |prior| ==> (prior + [c])[k] == prior[k];
  }

  lemma LastEntryIsFound(prior: seq<Call>, c: Call, ident: string)
    requires Ident(c) == ident && ident !in Idents(prior)
    ensures IndexOf(prior + [c], ident) == |prior|
  {
    var k := IndexOf(prior + [c], ident);
    assert (prior + [c])[|prior|] == c;
    assert forall j :: 0 <= j < |prior| ==> (prior + [c])[j] == prior[j] && Ident(prior[j]) in Idents(prior);
  }

  lemma SourcePrefix(same: Activity, streams: seq<Call>, saved: seq<Call>, ident: string, n: nat)
    requires Source(same, streams, saved, ident) < n <= |saved|
    ensures Source(same, streams, saved[..n], ident) == Source(same, streams, saved, ident)
  {
    assert forall k :: 0 <= k < n ==> saved[..n][k] == saved[k];
  }

  lemma {:induction false} NoSourceNoEntry(same: Activity, streams: seq<Call>, saved: seq<Call>, ident: string)
    requires forall k :: 0 <= k < |saved| ==> Ident(Upgrade(same, streams, saved[k])) != ident
    ensures ident !in Idents(Upgraded(same, streams, saved))
  {
    if saved != [] {
      var n := |saved| - 1;
      assert forall k :: 0 <= k < n ==> saved[..n][k] == saved[k];
      NoSourceNoEntry(same, streams, saved[..n], ident);
      IdentsAppend(Upgraded(same, streams, saved[..n]), Upgrade(same, streams, saved[n]));
    }
  }

  lemma {:induction false} UpgradedEntry(same: Activity, streams: seq<Call>, saved: seq<Call>, ident: string)
    requires Source(same, streams, saved, ident) < |saved|
    ensures var u := Upgraded(same, streams, saved);
            IndexOf(u, ident) < |u| &&
            u[IndexOf(u, ident)] == Upgrade(same, streams, saved[Source(same, streams, saved, ident)])
  {
    var n := |saved| - 1;
    var i := Source(same, streams, saved, ident);
    UpgradedFacts(same, streams, saved[..n]);
    var prior, c := Upgraded(same, streams, saved[..n]), Upgrade(same, streams, saved[n]);
    if i < n {
      SourcePrefix(same, streams, saved, ident, n);
      UpgradedEntry(same, streams, saved[..n], ident);
      EarlierEntryStays(prior, c, ident);
    } else {
      NoSourceNoEntry(same, streams, saved[..n], ident);
      LastEntryIsFound(prior, c, ident);
    }
  }

  /** The entry a merge leaves for an id, folding only the incoming calls with that id. */
  function Folded(entry: Call, incoming: seq<Call>): Call
    decreases |incoming|
  {
    if incoming == [] then entry
    else Folded(if Ident(incoming[0]) == Ident(entry) then Refresh(entry, incoming[0]) else entry, incoming[1..])
  }

  lemma {:induction false} MergeCallsEntry(merged: seq<Call>, incoming: seq<Call>, ident: string)
    requires Unique(merged) && ident in Idents(merged)
    ensures var out := MergeCalls(merged, incoming);
            IndexOf(out, ident) < |out| &&
            out[IndexOf(out, ident)] == Folded(merged[IndexOf(merged, ident)], incoming)
    decreases |incoming|
  {
    if incoming != [] {
      var i := IndexOf(merged, ident);
      var next := MergeCall(merged, incoming[0]);
      MergeCallFacts(merged, incoming[0]);
      if Ident(incoming[0]) == ident {
        RefreshKeepsIdent(merged[i], incoming[0]);
      }
      assert Ident(next[i]) == ident;
      assert IndexOf(next, ident) == i;
      MergeCallsEntry(next, incoming[1..], ident);
    }
  }

  /** What a merge keeps of an entry when none of its ids is repeated in the snapshot. */
  lemma {:induction false} FoldedKeeps(entry: Call, incoming: seq<Call>)
    requires Unique(incoming)
    ensures var f := Folded(entry, incoming);
            Ident(f) == Ident(entry) &&
            (Filled(f.arguments) <==>
               Filled(entry.arguments) ||
               exists c :: c in incoming && Ident(c) == Ident(entry) && Filled(c.arguments)) &&
            (Filled(f.result) <==>
               Filled(entry.result) || exists c :: c in incoming && Ident(c) == Ident(entry) && Filled(c.result)) &&
            (Filled(f.error) <==>
               Filled(entry.error) || exists c :: c in incoming && Ident(c) == Ident(entry) && Filled(c.error)) &&
            (Finished(entry) ==> f.status != Some("running")) &&
            (Ident(entry) !in Idents(incoming) ==> f == entry)
    decreases |incoming|
  {
    if incoming != [] {
      var c, rest := incoming[0], incoming[1..];
      assert incoming == [c] + rest;
      assert Ident(c) in Idents(incoming);
      assert Ident(c) !in Idents(rest) by {
        assert forall k :: 0 <= k < |rest| ==> rest[k] == incoming[k + 1];
      }
      forall x | x in Idents(rest) ensures x in Idents(incoming) {
        var k :| 0 <= k < |rest| && Ident(rest[k]) == x;
        assert incoming[k + 1] == rest[k];
      }
      forall d | d in rest ensures Ident(d) in Idents(rest) {
        var k :| 0 <= k < |rest| && rest[k] == d;
      }
      if Ident(c) == Ident(entry) {
        RefreshKeepsIdent(entry, c);
        FoldedKeeps(Refresh(entry, c), rest);
      } else {
        FoldedKeeps(entry, rest);
      }
    }
  }

  lemma UniqueCall(calls: seq<Call>, a: Call, b: Call)
    requires Unique(calls) && a in calls && b in calls && Ident(a) == Ident(b)
    ensures a == b
  {
    var i :| 0 <= i < |calls| && calls[i] == a;
    var j :| 0 <= j < |calls| && calls[j] == b;
    assert i == j;
  }

  lemma {:induction false} RelevantIsUnique(same: Activity, streams: seq<Call>, incoming: seq<Call>)
    requires Unique(incoming)
    ensures Unique(Relevant(same, streams, incoming))
  {
    if incoming != [] {
      var rest := incoming[1..];
      assert forall k :: 0 <= k < |rest| ==> rest[k] == incoming[k + 1];
      RelevantIsUnique(same, streams, rest);
      var kept := Relevant(same, streams, rest);
      forall k | 0 <= k < |kept| ensures Ident(kept[k]) != Ident(incoming[0]) {
        assert kept[k] in rest;
      }
    }
  }

  /** The merged entry of a saved stream invocation. */
  function Entry(same: Activity, saved: seq<Call>, incoming: seq<Call>, ident: string): Option<Call> {
    var out := Merged(same, saved, incoming);
    var i := IndexOf(out, ident);
    if i < |out| then Some(out[i]) else None
  }

  lemma SourceExists(same: Activity, streams: seq<Call>, saved: seq<Call>, c: Call)
    requires c in saved && !Heading(c)
    ensures Source(same, streams, saved, Ident(c)) < |saved|
  {
    var k :| 0 <= k < |saved| && saved[k] == c;
    assert Ident(Upgrade(same, streams, saved[k])) == Ident(c);
  }

  lemma EntryIsFolded(same: Activity, saved: seq<Call>, incoming: seq<Call>, c: Call)
    requires c in saved && !Heading(c)
    ensures var streams := Streams(saved + incoming);
            var i := Source(same, streams, saved, Ident(c));
            i < |saved| &&
            Entry(same, saved, incoming, Ident(c)) ==
              Some(Folded(Upgrade(same, streams, saved[i]), Relevant(same, streams, incoming)))
  {
    var streams := Streams(saved + incoming);
    SourceExists(same, streams, saved, c);
    UpgradedFacts(same, streams, saved);
    UpgradedEntry(same, streams, saved, Ident(c));
    MergeCallsEntry(Upgraded(same, streams, saved), Relevant(same, streams, incoming), Ident(c));
  }

  /** Unless its saved snapshot is displaced, a merge never blanks a filled field of a saved invocation and
      never turns a finished invocation back into a running one. */
  lemma MergeKeepsInvocation(same: Activity, saved: seq<Call>, incoming: seq<Call>, c: Call)
    requires Unique(saved) && Unique(incoming) && c in saved && !Heading(c)
    requires !Displaced(same, saved, incoming, Ident(c))
    ensures var e := Entry(same, saved, incoming, Ident(c));
            e.Some? &&
            (Filled(c.arguments) ==> Filled(e.value.arguments)) &&
            (Filled(c.result) ==> Filled(e.value.result)) &&
            (Filled(c.error) ==> Filled(e.value.error)) &&
            (Finished(c) ==> e.value.status != Some("running"))
  {
    var streams := Streams(saved + incoming);
    EntryIsFolded(same, saved, incoming, c);
    var source := saved[Source(same, streams, saved, Ident(c))];
    if Heading(source) && FirstSame(same, source, streams).Some? {
      UniqueCall(saved, FirstSame(same, source, streams).value, c);
    } else {
      UniqueCall(saved, source, c);
    }
    RelevantIsUnique(same, streams, incoming);
    FoldedKeeps(Upgrade(same, streams, source), Relevant(same, streams, incoming));
  }

  lemma {:induction false} FoldedNone(entry: Call, incoming: seq<Call>)
    requires forall k :: 0 <= k < |incoming| ==> Ident(incoming[k]) != Ident(entry)
    ensures Folded(entry, incoming) == entry
    decreases |incoming|
  {
    if incoming != [] {
      FoldedNone(entry, incoming[1..]);
    }
  }

  lemma {:induction false} FoldedOnce(entry: Call, incoming: seq<Call>, s: Call)
    requires Unique(incoming) && s in incoming && Ident(s) == Ident(entry)
    ensures Folded(entry, incoming) == Refresh(entry, s)
    decreases |incoming|
  {
    var c, rest := incoming[0], incoming[1..];
    assert incoming == [c] + rest;
    assert forall k :: 0 <= k < |rest| ==> rest[k] == incoming[k + 1];
    if c == s {
      RefreshKeepsIdent(entry, s);
      FoldedNone(Refresh(entry, s), rest);
    } else {
      if Ident(c) == Ident(s) { UniqueCall(incoming, c, s); }
      FoldedOnce(entry, rest, s);
    }
  }

  /** When it is displaced, the entry says exactly what the incoming snapshot says. */
  lemma DisplacedEntry(same: Activity, saved: seq<Call>, incoming: seq<Call>, c: Call, s: Call)
    requires Unique(saved) && Unique(incoming) && c in saved && !Heading(c)
    requires Displaced(same, saved, incoming, Ident(c))
    requires s in incoming && Ident(s) == Ident(c)
    ensures var e := Entry(same, saved, incoming, Ident(c));
            e.Some? && e.value.status == s.status &&
            (Filled(e.value.arguments) <==> Filled(s.arguments)) &&
            (Filled(e.value.result) <==> Filled(s.result)) &&
            (Filled(e.value.error) <==> Filled(s.error))
  {
    var streams := Streams(saved + incoming);
    EntryIsFolded(same, saved, incoming, c);
    var source := saved[Source(same, streams, saved, Ident(c))];
    var t := FirstSame(same, source, streams).value;
    assert t in saved + incoming;
    UniqueCall(incoming, s, t);
    RelevantIsUnique(same, streams, incoming);
    var relevant := Relevant(same, streams, incoming);
    assert s in relevant;
    FoldedOnce(Upgrade(same, streams, source), relevant, s);
  }

  /** Exactly when one merge blanks what is known of a saved invocation, or makes a finished one run again: the
      saved snapshot is displaced by an incoming one without that field, or by one that says running. */
  lemma LossesIff(same: Activity, saved: seq<Call>, incoming: seq<Call>, c: Call)
    requires Unique(saved) && Unique(incoming) && c in saved && !Heading(c)
    ensures var e := Entry(same, saved, incoming, Ident(c));
            var displaced := Displaced(same, saved, incoming, Ident(c));
            e.Some? &&
            (Filled(c.result) ==>
               (!Filled(e.value.result) <==>
                  displaced && forall s :: s in incoming && Ident(s) == Ident(c) ==> !Filled(s.result))) &&
            (Filled(c.arguments) ==>
               (!Filled(e.value.arguments) <==>
                  displaced && forall s :: s in incoming && Ident(s) == Ident(c) ==> !Filled(s.arguments))) &&
            (Filled(c.error) ==>
               (!Filled(e.value.error) <==>
                  displaced && forall s :: s in incoming && Ident(s) == Ident(c) ==> !Filled(s.error))) &&
            (Finished(c) ==>
               (e.value.status == Some("running") <==>
                  displaced && exists s :: s in incoming && Ident(s) == Ident(c) && s.status == Some("running")))
  {
    if Displaced(same, saved, incoming, Ident(c)) {
      var streams := Streams(saved + incoming);
      var t := FirstSame(same, saved[Source(same, streams, saved, Ident(c))], streams).value;
      assert t in saved + incoming && t in incoming;
      DisplacedEntry(same, saved, incoming, c, t);
      forall s | s in incoming && Ident(s) == Ident(c) ensures s == t {
        UniqueCall(incoming, s, t);
      }
    } else {
      MergeKeepsInvocation(same, saved, incoming, c);
    }
  }

  /** The displacement is real: a finished fetch with a result, saved after a heading, becomes a running
      call without one when the stream next names it a search. */
  lemma DisplacementExample()
    ensures var heading := Call(Some("dom-tool-0"), Some("observed"), None, None, None, None, None,
                                Some("Searched the web"));
            var fetched := Call(Some("call-1"), Some("completed"), None, Some("page"), None, None, None, Some("fetch"));
            var renamed := Call(Some("call-1"), Some("running"), None, None, None, None, None, Some("search"));
            var same: Activity := (h: Call, s: Call) => s.action == Some("search");
            var e := Entry(same, [heading, fetched], [renamed], "call-1");
            e.Some? && e.value.status == Some("running") && !Filled(e.value.result)
  {
    var heading := Call(Some("dom-tool-0"), Some("observed"), None, None, None, None, None, Some("Searched the web"));
    var fetched := Call(Some("call-1"), Some("completed"), None, Some("page"), None, None, None, Some("fetch"));
    var renamed := Call(Some("call-1"), Some("running"), None, None, None, None, None, Some("search"));
    var same: Activity := (h: Call, s: Call) => s.action == Some("search");
    var saved, incoming := [heading, fetched], [renamed];
    assert saved + incoming == [heading, fetched, renamed];
    assert Heading(heading) by { assert heading.id.value[..9] == "dom-tool-"; }
    assert !Heading(fetched) by { assert fetched.id.value[0] == 'c'; }
    assert !Heading(renamed);
    assert [heading, fetched, renamed][1..] == [fetched, renamed] && [fetched, renamed][1..] == [renamed];
    assert [renamed][1..] == [];
    assert Streams([renamed]) == [renamed];
    assert Streams([fetched, renamed]) == [fetched, renamed];
    assert Streams(saved + incoming) == [fetched, renamed];
    assert FirstSame(same, heading, [fetched, renamed]) == Some(renamed);
    assert Source(same, [fetched, renamed], saved, "call-1") == 0;
    assert Displaced(same, saved, incoming, "call-1");
    DisplacedEntry(same, saved, incoming, fetched, renamed);
  }

  // ---------------------------------------------------------------- the loops

  method UpgradeHeadings(same: Activity, streams: seq<Call>, saved: seq<Call>) returns (upgraded: seq<Call>)
    ensures upgraded == Upgraded(same, streams, saved)
  {
    upgraded := [];
    var upgradedIds: set<string> := {};
    for n := 0 to |saved|
      invariant upgraded == Upgraded(same, streams, saved[..n])
      invariant upgradedIds == Idents(upgraded)
    {
      var call := Upgrade(same, streams, saved[n]);
      assert saved[..n + 1][..n] == saved[..n];
      if Ident(call) !in upgradedIds {
        IdentsAppend(upgraded, call);
        upgraded := upgraded + [call];
        upgradedIds := upgradedIds + {Ident(call)};
      }
    }
    assert saved[..|saved|] == saved;
  }

  /** `by_id`: the position of every id in the list. */
  ghost predicate Indexes(byId: map<string, nat>, calls: seq<Call>) {
    byId.Keys == Idents(calls) && forall x :: x in byId ==> byId[x] < |calls| && Ident(calls[byId[x]]) == x
  }

  lemma IndexOfUnique(calls: seq<Call>, i: nat)
    requires Unique(calls) && i < |calls|
    ensures IndexOf(calls, Ident(calls[i])) == i
  {
    assert Ident(calls[i]) in Idents(calls);
  }

  /** One incoming call, looked up by id and refreshed in place or appended. */
  method RefreshOrAppend(merged: seq<Call>, byId: map<string, nat>, call: Call)
    returns (merged': seq<Call>, byId': map<string, nat>)
    requires Unique(merged) && Indexes(byId, merged)
    ensures merged' == MergeCall(merged, call)
    ensures Indexes(byId', merged')
  {
    merged', byId' := merged, byId;
    MergeCallFacts(merged, call);
    if Ident(call) in byId {
      var index := byId[Ident(call)];
      IndexOfUnique(merged, index);
      RefreshKeepsIdent(merged[index], call);
      merged' := merged[index := Refresh(merged[index], call)];
    } else if |merged| < MAX_CALLS {
      byId' := byId[Ident(call) := |merged|];
      merged' := merged + [call];
    }
  }

  method IndexIds(merged: seq<Call>) returns (byId: map<string, nat>)
    requires Unique(merged)
    ensures Indexes(byId, merged)
  {
    byId := map[];
    for i := 0 to |merged|
      invariant byId.Keys == Idents(merged[..i])
      invariant forall x :: x in byId ==> byId[x] < i && Ident(merged[byId[x]]) == x
    {
      IdentsAppend(merged[..i], merged[i]);
      assert merged[..i + 1] == merged[..i] + [merged[i]];
      byId := byId[Ident(merged[i]) := i];
    }
    assert merged[..|merged|] == merged;
  }

  method SerializeToolCalls(size: Sizing, merged: seq<Call>) returns (selected: seq<Call>)
    ensures selected == Serialize(size, merged, 0)
  {
    selected := [];
    var n := 0;
    while n < |merged| && n < MAX_CALLS && size(selected + [merged[n]]) <= MAX_JSON
      invariant n <= |merged| && selected == merged[..n]
      invariant Serialize(size, merged, n) == Serialize(size, merged, 0)
    {
      assert selected + [merged[n]] == merged[..n + 1];
      selected := selected + [merged[n]];
      n := n + 1;
    }
    assert n < |merged| ==> selected + [merged[n]] == merged[..n + 1];
  }

  /** The stored snapshot is updated in place by invocation id, bounded, and serialized. */
  method StoreToolCalls(same: Activity, size: Sizing, previous: StoredCalls, incoming: seq<Call>)
    returns (stored: StoredCalls)
    ensures stored == MergeToolCalls(same, size, previous, incoming)
  {
    if incoming == [] {
      return previous;
    }
    var saved := Deserialize(previous);
    var streams := Streams(saved + incoming);
    var merged := UpgradeHeadings(same, streams, saved);
    UpgradedFacts(same, streams, saved);
    var relevant := Relevant(same, streams, incoming);
    var byId := IndexIds(merged);
    for n := 0 to |relevant|
      invariant Unique(merged) && Indexes(byId, merged)
      invariant MergeCalls(merged, relevant[n..]) == Merged(same, saved, incoming)
    {
      assert relevant[n..][0] == relevant[n] && relevant[n..][1..] == relevant[n + 1..];
      MergeCallFacts(merged, relevant[n]);
      merged, byId := RefreshOrAppend(merged, byId, relevant[n]);
    }
    assert relevant[|relevant|..] == [];
    var selected := SerializeToolCalls(size, merged);
    stored := Calls(selected);
  }
}
