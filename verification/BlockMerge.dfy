/** Merging a new snapshot of transcript blocks into the saved ones without losing progress. */
module BlockMerge {
  import opened Tables
  import opened DisplayBlocks

  predicate Stable(b: Block) { HasPrefix("sse-", b.id) }

  // ---------------------------------------------------------------- choosing a slot

  /** First index in merged[from..] whose block has this id and kind; |merged| when there is none. */
  function SlotById(merged: seq<Block>, id: string, tool: bool, from: nat): (i: nat)
    requires from <= |merged|
    ensures from <= i <= |merged|
    ensures i < |merged| ==> merged[i].id == id && merged[i].Tool? == tool
    ensures forall k :: from <= k < i ==> !(merged[k].id == id && merged[k].Tool? == tool)
    decreases |merged| - from
  {
    if from == |merged| || (merged[from].id == id && merged[from].Tool? == tool) then from
    else SlotById(merged, id, tool, from + 1)
  }

  /** Slots prose may still be matched against. */
  predicate Candidate(merged: seq<Block>, matched: set<nat>, stable: bool, i: nat) {
    i < |merged| && i !in matched && merged[i].Text? && (!stable || !HasPrefix("sse-", merged[i].id))
  }

  function ExactSlot(merged: seq<Block>, matched: set<nat>, stable: bool, text: string, from: nat): (r: Option<nat>)
    requires from <= |merged|
    ensures r.Some? ==> Candidate(merged, matched, stable, r.value) && merged[r.value].text == text
    ensures r.None? ==> forall k :: from <= k < |merged| && Candidate(merged, matched, stable, k) ==>
                          merged[k].text != text
    decreases |merged| - from
  {
    if from == |merged| then None
    else if Candidate(merged, matched, stable, from) && merged[from].text == text then Some(from)
    else ExactSlot(merged, matched, stable, text, from + 1)
  }

  /** Among merged[..n]: the longest candidate the new text extends, the last one on ties. */
  function GrowingSlot(merged: seq<Block>, matched: set<nat>, stable: bool, text: string, n: nat): (r: Option<nat>)
    requires n <= |merged|
    ensures r.Some? ==>
              r.value < n && Candidate(merged, matched, stable, r.value) && HasPrefix(merged[r.value].text, text)
    ensures forall k :: 0 <= k < n && Candidate(merged, matched, stable, k) && HasPrefix(merged[k].text, text) ==>
              r.Some? && |merged[k].text| <= |merged[r.value].text| &&
              (|merged[k].text| == |merged[r.value].text| ==> k <= r.value)
  {
    if n == 0 then None
    else
      var prior := GrowingSlot(merged, matched, stable, text, n - 1);
      if Candidate(merged, matched, stable, n - 1) && HasPrefix(merged[n - 1].text, text) &&
         (prior.None? || |merged[prior.value].text| <= |merged[n - 1].text|)
      then Some(n - 1) else prior
  }

  /** Among merged[..n]: the last candidate that already extends the new text. */
  function ShrinkingSlot(merged: seq<Block>, matched: set<nat>, stable: bool, text: string, n: nat): (r: Option<nat>)
    requires n <= |merged|
    ensures r.Some? ==>
              r.value < n && Candidate(merged, matched, stable, r.value) && HasPrefix(text, merged[r.value].text)
    ensures forall k :: 0 <= k < n && Candidate(merged, matched, stable, k) && HasPrefix(text, merged[k].text) ==>
              r.Some? && k <= r.value
  {
    if n == 0 then None
    else if Candidate(merged, matched, stable, n - 1) && HasPrefix(text, merged[n - 1].text) then Some(n - 1)
    else ShrinkingSlot(merged, matched, stable, text, n - 1)
  }

  function Slot(merged: seq<Block>, matched: set<nat>, b: Block): (r: Option<nat>)
    ensures r.Some? ==> r.value < |merged| && merged[r.value].Text? == b.Text?
  {
    var byId := SlotById(merged, b.id, b.Tool?, 0);
    if b.Tool? then
      if byId < |merged| then Some(byId) else None
    else if Stable(b) && byId < |merged| then Some(byId)
    else
      var exact := ExactSlot(merged, matched, Stable(b), b.text, 0);
      if exact.Some? then exact
      else
        var growing := GrowingSlot(merged, matched, Stable(b), b.text, |merged|);
        if growing.Some? then growing
        else ShrinkingSlot(merged, matched, Stable(b), b.text, |merged|)
  }

  // ---------------------------------------------------------------- fresh ids

  function Dec(n: nat): (s: string)
    ensures |s| >= 1 && forall i :: 0 <= i < |s| ==> Digit(s[i])
    ensures n < 10 ==> |s| == 1
    ensures n < 100 ==> |s| <= 2
    ensures n < 1000 ==> |s| <= 3
  {
    if n < 10 then [('0' as int + n) as char] else Dec(n / 10) + [('0' as int + n % 10) as char]
  }

  lemma {:induction false} DecInjective(a: nat, b: nat)
    requires Dec(a) == Dec(b)
    ensures a == b
  {
    var s := Dec(a);
    assert s[|s| - 1] == ('0' as int + a % 10) as char == ('0' as int + b % 10) as char;
    if a >= 10 && b >= 10 {
      assert s[..|s| - 1] == Dec(a / 10) == Dec(b / 10);
      DecInjective(a / 10, b / 10);
    }
  }

  function IdPrefix(b: Block): string {
    if b.Text? then "text-" else "dom-tool-"
  }

  function FreeFrom(prefix: string, used: set<string>, i: nat): (r: nat)
    ensures r < MAX_BLOCKS ==> prefix + Dec(r) !in used
    ensures r >= MAX_BLOCKS ==> forall k :: i <= k < MAX_BLOCKS ==> prefix + Dec(k) in used
    decreases MAX_BLOCKS - i
  {
    if i >= MAX_BLOCKS then MAX_BLOCKS
    else if prefix + Dec(i) !in used then i
    else FreeFrom(prefix, used, i + 1)
  }

  lemma {:induction false} NumberedIdsAreMany(prefix: string, used: set<string>, n: nat)
    requires forall k :: 0 <= k < n ==> prefix + Dec(k) in used
    ensures |used| >= n
  {
    if n > 0 {
      var last := prefix + Dec(n - 1);
      forall k | 0 <= k < n - 1 ensures prefix + Dec(k) in used - {last} {
        if prefix + Dec(k) == last {
          assert (prefix + Dec(k))[|prefix|..] == Dec(k) && last[|prefix|..] == Dec(n - 1);
          DecInjective(k, n - 1);
        }
      }
      NumberedIdsAreMany(prefix, used - {last}, n - 1);
    }
  }

  /** Under 256 blocks, one of the 256 numbered ids is always free. */
  lemma FreeIdExists(prefix: string, used: set<string>)
    requires |used| < MAX_BLOCKS
    ensures FreeFrom(prefix, used, 0) < MAX_BLOCKS
  {
    if FreeFrom(prefix, used, 0) >= MAX_BLOCKS {
      NumberedIdsAreMany(prefix, used, MAX_BLOCKS);
    }
  }

  function Ids(bs: seq<Block>): set<string> {
    set i | 0 <= i < |bs| :: bs[i].id
  }

  lemma {:induction false} FewIds(bs: seq<Block>)
    ensures |Ids(bs)| <= |bs|
  {
    if bs != [] {
      var n := |bs| - 1;
      FewIds(bs[..n]);
      assert Ids(bs) == Ids(bs[..n]) + {bs[n].id};
    }
  }

  // ---------------------------------------------------------------- one block

  function Grown(was: Block, b: Block): Block
    requires was.Text? && b.Text?
  {
    if |b.text| >= |was.text| then Text(was.id, b.text, if was.seenAt.Some? then was.seenAt else b.seenAt) else was
  }

  function Renamed(merged: seq<Block>, b: Block): Block {
    if b.id !in Ids(merged) then b
    else b.(id := IdPrefix(b) + Dec(FreeFrom(IdPrefix(b), Ids(merged), 0)))
  }

  datatype Progress = Progress(merged: seq<Block>, matched: set<nat>)

  function MergeOne(p: Progress, b: Block): Progress {
    match Slot(p.merged, p.matched, b)
    case Some(i) =>
      Progress(if b.Text? then p.merged[i := Grown(p.merged[i], b)] else p.merged, p.matched + {i})
    case None =>
      if |p.merged| >= MAX_BLOCKS then p
      else Progress(p.merged + [Renamed(p.merged, b)], p.matched + {|p.merged|})
  }

  function MergeAll(p: Progress, bs: seq<Block>): Progress
    decreases |bs|
  {
    if bs == [] then p else MergeAll(MergeOne(p, bs[0]), bs[1..])
  }

  /** The merged list before its final normalization. */
  function Merged(sim: Similarity, previous: Stored, incoming: seq<Raw>): seq<Block> {
    MergeAll(Progress(Normalize(sim, previous), {}), Normalize(sim, Items(incoming))).merged
  }

  function MergeBlocks(sim: Similarity, previous: Stored, incoming: seq<Raw>): Stored {
    if incoming == [] then previous
    else Items(ToRaws(Normalize(sim, Items(ToRaws(Merged(sim, previous, incoming))))))
  }

  // ---------------------------------------------------------------- growth

  /** A slot keeps its kind and id, its text never gets shorter and its first timestamp stays. */
  ghost predicate SlotGrows(was: Block, now: Block) {
    if was.Tool? then now == was
    else now.Text? && now.id == was.id && |now.text| >= |was.text| && (was.seenAt.Some? ==> now.seenAt == was.seenAt)
  }

  ghost predicate Grows(was: seq<Block>, now: seq<Block>) {
    |was| <= |now| && forall i :: 0 <= i < |was| ==> SlotGrows(was[i], now[i])
  }

  ghost predicate UniqueIds(bs: seq<Block>) {
    forall i, j :: 0 <= i < j < |bs| ==> bs[i].id != bs[j].id
  }

  function ToolsTo(bs: seq<Block>, n: nat): seq<Block>
    requires n <= |bs|
  {
    if n == 0 then [] else ToolsTo(bs, n - 1) + if bs[n - 1].Tool? then [bs[n - 1]] else []
  }

  function Tools(bs: seq<Block>): seq<Block> {
    ToolsTo(bs, |bs|)
  }

  /** Some slot holds the tool marker, extends the prose, or is the longer saved state of its stream id. */
  ghost predicate Covers(slot: Block, b: Block) {
    if b.Tool? then slot.Tool? && slot.id == b.id
    else slot.Text? && (HasPrefix(b.text, slot.text) || (Stable(b) && slot.id == b.id && |slot.text| > |b.text|))
  }

  lemma NumberedIdIsValid(b: Block, n: nat)
    requires n < 1000
    ensures NumberedId(IdPrefix(b), IdPrefix(b) + Dec(n))
  {
    var id := IdPrefix(b) + Dec(n);
    assert id[..|IdPrefix(b)|] == IdPrefix(b);
  }

  /** A tool marker whose id is already used is always matched, so only prose is ever renamed. */
  lemma OnlyProseIsRenamed(merged: seq<Block>, matched: set<nat>, b: Block)
    requires AllWellFormed(merged) && WellFormed(b) && b.Tool? && b.id in Ids(merged)
    ensures Slot(merged, matched, b).Some?
  {
    var i :| 0 <= i < |merged| && merged[i].id == b.id;
    assert WellFormed(merged[i]);
    IdKinds(b.id);
  }

  lemma RenamedIsFresh(merged: seq<Block>, matched: set<nat>, b: Block)
    requires |merged| < MAX_BLOCKS && AllWellFormed(merged) && WellFormed(b)
    requires Slot(merged, matched, b).None?
    ensures Renamed(merged, b).id !in Ids(merged) && WellFormed(Renamed(merged, b))
    ensures Renamed(merged, b) == b.(id := Renamed(merged, b).id)
    ensures b.Tool? ==> Renamed(merged, b) == b
  {
    if b.id in Ids(merged) {
      if b.Tool? {
        OnlyProseIsRenamed(merged, matched, b);
      } else {
        FewIds(merged);
        FreeIdExists(IdPrefix(b), Ids(merged));
        NumberedIdIsValid(b, FreeFrom(IdPrefix(b), Ids(merged), 0));
      }
    }
  }

  ghost predicate Sound(p: Progress) {
    |p.merged| <= MAX_BLOCKS && AllWellFormed(p.merged)
  }

  lemma GrownIsSound(was: Block, b: Block)
    requires was.Text? && b.Text? && WellFormed(was) && WellFormed(b)
    ensures SlotGrows(was, Grown(was, b)) && WellFormed(Grown(was, b))
  {
  }

  lemma EditedSlot(merged: seq<Block>, i: nat, b: Block)
    requires i < |merged| && SlotGrows(merged[i], b) && AllWellFormed(merged) && WellFormed(b)
    ensures Grows(merged, merged[i := b]) && AllWellFormed(merged[i := b])
    ensures UniqueIds(merged) ==> UniqueIds(merged[i := b])
  {
  }

  lemma AddedSlot(merged: seq<Block>, b: Block)
    requires b.id !in Ids(merged) && AllWellFormed(merged) && WellFormed(b)
    ensures Grows(merged, merged + [b]) && AllWellFormed(merged + [b])
    ensures UniqueIds(merged) ==> UniqueIds(merged + [b])
  {
    assert forall i :: 0 <= i < |merged| ==> merged[i].id in Ids(merged);
  }

  lemma MergeOneSound(p: Progress, b: Block)
    requires Sound(p) && WellFormed(b)
    ensures Sound(MergeOne(p, b))
    ensures Grows(p.merged, MergeOne(p, b).merged)
    ensures UniqueIds(p.merged) ==> UniqueIds(MergeOne(p, b).merged)
  {
    match Slot(p.merged, p.matched, b)
    case Some(i) =>
      if b.Text? {
        GrownIsSound(p.merged[i], b);
        EditedSlot(p.merged, i, Grown(p.merged[i], b));
      }
    case None =>
      if |p.merged| < MAX_BLOCKS {
        RenamedIsFresh(p.merged, p.matched, b);
        AddedSlot(p.merged, Renamed(p.merged, b));
      }
  }

  /** Unless the list is full, a merged block ends up covered by a slot. */
  lemma MergeOneCovers(p: Progress, b: Block)
    requires Sound(p) && WellFormed(b)
    ensures Slot(p.merged, p.matched, b).Some? || |p.merged| < MAX_BLOCKS ==>
              exists i :: 0 <= i < |MergeOne(p, b).merged| && Covers(MergeOne(p, b).merged[i], b)
  {
    var after := MergeOne(p, b).merged;
    match Slot(p.merged, p.matched, b)
    case Some(i) =>
      if b.Text? && |b.text| >= |p.merged[i].text| {
        assert b.text[..|b.text|] == b.text;
      }
      assert Covers(after[i], b);
    case None =>
      if |p.merged| < MAX_BLOCKS {
        RenamedIsFresh(p.merged, p.matched, b);
        if b.Text? { assert b.text[..|b.text|] == b.text; }
        assert Covers(after[|p.merged|], b);
      }
  }

  lemma {:induction false} MergeAllSound(p: Progress, bs: seq<Block>)
    requires Sound(p) && AllWellFormed(bs)
    ensures Sound(MergeAll(p, bs))
    ensures Grows(p.merged, MergeAll(p, bs).merged)
    ensures UniqueIds(p.merged) ==> UniqueIds(MergeAll(p, bs).merged)
    decreases |bs|
  {
    if bs != [] {
      MergeOneSound(p, bs[0]);
      MergeAllSound(MergeOne(p, bs[0]), bs[1..]);
      var mid, end := MergeOne(p, bs[0]).merged, MergeAll(p, bs).merged;
      forall i | 0 <= i < |p.merged| ensures SlotGrows(p.merged[i], end[i]) {
        assert SlotGrows(p.merged[i], mid[i]) && SlotGrows(mid[i], end[i]);
      }
    }
  }

  /** Before its final normalization the merge grows slot by slot and keeps ids unique. */
  lemma MergeGrows(sim: Similarity, previous: Stored, incoming: seq<Raw>)
    requires TieSymmetric(sim)
    ensures Grows(Normalize(sim, previous), Merged(sim, previous, incoming))
    ensures |Merged(sim, previous, incoming)| <= MAX_BLOCKS && AllWellFormed(Merged(sim, previous, incoming))
    ensures UniqueIds(Normalize(sim, previous)) ==> UniqueIds(Merged(sim, previous, incoming))
  {
    NormalizeIsCanonical(sim, previous);
    NormalizeIsCanonical(sim, Items(incoming));
    MergeAllSound(Progress(Normalize(sim, previous), {}), Normalize(sim, Items(incoming)));
  }

  // ---------------------------------------------------------------- tool markers and ids of the result

  /** Both lists hold the same tool markers in their first n places. */
  lemma {:induction false} SameTools(a: seq<Block>, b: seq<Block>, n: nat)
    requires n <= |a| && n <= |b| && forall i :: 0 <= i < n ==> a[i] == b[i] || (a[i].Text? && b[i].Text?)
    ensures ToolsTo(a, n) == ToolsTo(b, n)
  {
    if n > 0 {
      SameTools(a, b, n - 1);
    }
  }

  lemma {:induction false} ToolsSplit(a: seq<Block>, b: seq<Block>, n: nat)
    requires n <= |b|
    ensures ToolsTo(a + b, |a| + n) == Tools(a) + ToolsTo(b, n)
  {
    if n == 0 {
      SameTools(a + b, a, |a|);
    } else {
      ToolsSplit(a, b, n - 1);
      assert (a + b)[|a| + n - 1] == b[n - 1];
    }
  }

  lemma ToolsAppend(a: seq<Block>, b: seq<Block>)
    ensures Tools(a + b) == Tools(a) + Tools(b)
  {
    ToolsSplit(a, b, |b|);
  }

  lemma ToolsFirst(b: Block, rest: seq<Block>)
    ensures Tools([b] + rest) == (if b.Tool? then [b] else []) + Tools(rest)
  {
    ToolsAppend([b], rest);
    assert ToolsTo([b], 0) == [];
  }

  lemma {:induction false} ToolsGrow(bs: seq<Block>, n: nat)
    requires n <= |bs|
    ensures ToolsTo(bs, n) <= Tools(bs)
    decreases |bs| - n
  {
    if n < |bs| {
      ToolsGrow(bs, n + 1);
      assert ToolsTo(bs, n) <= ToolsTo(bs, n + 1);
    }
  }

  lemma GrowingKeepsTools(was: seq<Block>, now: seq<Block>)
    requires Grows(was, now)
    ensures Tools(was) <= Tools(now)
  {
    forall i | 0 <= i < |was| ensures was[i] == now[i] || (was[i].Text? && now[i].Text?) {
      assert SlotGrows(was[i], now[i]);
    }
    SameTools(was, now, |was|);
    ToolsGrow(now, |was|);
  }

  lemma {:induction false} WithoutKeepsTools(sim: Similarity, visible: seq<Block>, text: string)
    ensures Tools(Without(sim, visible, text)) == Tools(visible)
  {
    if visible != [] {
      WithoutKeepsTools(sim, visible[1..], text);
      assert visible == [visible[0]] + visible[1..];
      ToolsFirst(visible[0], visible[1..]);
      if !Matches(sim, visible[0], text) {
        ToolsFirst(visible[0], Without(sim, visible[1..], text));
      } else {
        assert [] + Without(sim, visible[1..], text) == Without(sim, visible[1..], text);
      }
    }
  }

  lemma SpliceTools(before: seq<Block>, was: Block, now: Block, rest: seq<Block>, kept: seq<Block>)
    requires was.Text? && now.Text? && Tools(kept) == Tools(rest)
    ensures Tools(before + [now] + kept) == Tools(before + [was] + rest)
  {
    ToolsFirst(now, kept);
    ToolsFirst(was, rest);
    ToolsAppend(before, [now] + kept);
    ToolsAppend(before, [was] + rest);
    assert before + [now] + kept == before + ([now] + kept);
    assert before + [was] + rest == before + ([was] + rest);
  }

  lemma ReplacedKeepsTools(sim: Similarity, visible: seq<Block>, first: nat, r: Block, text: string)
    requires first < |visible| && visible[first].Text? && r.Text?
    ensures Tools(visible[..first] + [r] + Without(sim, visible[first + 1..], text)) == Tools(visible)
  {
    var rest := visible[first + 1..];
    WithoutKeepsTools(sim, rest, text);
    SpliceTools(visible[..first], visible[first], r, rest, Without(sim, rest, text));
    assert visible == visible[..first] + [visible[first]] + rest;
  }

  /** What a replacement keeps, absorbing a re-rendering keeps. */
  lemma AbsorbKeeps<T>(sim: Similarity, visible: seq<Block>, b: Block, measure: seq<Block> -> T)
    requires b.Text? && FirstMatch(sim, visible, b.text) < |visible|
    requires var first := FirstMatch(sim, visible, b.text);
             var kept := Without(sim, visible[first + 1..], b.text);
             measure(visible[..first] + [Replacement(visible[first], b)] + kept) == measure(visible)
    ensures measure(Absorb(sim, visible, b)) == measure(visible)
  {
    AbsorbForms(sim, visible, b);
  }

  lemma AbsorbKeepsTools(sim: Similarity, visible: seq<Block>, b: Block)
    ensures Tools(Absorb(sim, visible, b)) == Tools(visible) + Tools([b])
  {
    assert b.Text? ==> Tools([b]) == [] by { assert ToolsTo([b], 0) == []; }
    if b.Text? && FirstMatch(sim, visible, b.text) < |visible| {
      var first := FirstMatch(sim, visible, b.text);
      ReplacedKeepsTools(sim, visible, first, Replacement(visible[first], b), b.text);
      AbsorbKeeps(sim, visible, b, Tools);
    } else {
      assert Absorb(sim, visible, b) == visible + [b];
      ToolsAppend(visible, [b]);
    }
  }

  lemma {:induction false} CollapseKeepsTools(sim: Similarity, visible: seq<Block>, items: seq<Block>)
    ensures Tools(CollapseFrom(sim, visible, items)) == Tools(visible) + Tools(items)
    decreases |items|
  {
    if items != [] {
      AbsorbKeepsTools(sim, visible, items[0]);
      CollapseKeepsTools(sim, Absorb(sim, visible, items[0]), items[1..]);
      assert items == [items[0]] + items[1..];
      ToolsAppend([items[0]], items[1..]);
    }
  }

  lemma IdsConcat(a: seq<Block>, b: seq<Block>)
    ensures Ids(a + b) == Ids(a) + Ids(b)
    ensures UniqueIds(a + b) <==> UniqueIds(a) && UniqueIds(b) && Ids(a) !! Ids(b)
  {
    var c := a + b;
    assert forall i :: 0 <= i < |a| ==> c[i] == a[i];
    assert forall i :: 0 <= i < |b| ==> c[|a| + i] == b[i];
    forall x | x in Ids(a) + Ids(b) ensures x in Ids(c) {
      if x in Ids(a) {
        var i :| 0 <= i < |a| && a[i].id == x;
        assert c[i].id == x;
      } else {
        var i :| 0 <= i < |b| && b[i].id == x;
        assert c[|a| + i].id == x;
      }
    }
    if UniqueIds(c) {
      forall x | x in Ids(a) ensures x !in Ids(b) {
        var i :| 0 <= i < |a| && a[i].id == x;
        forall j | 0 <= j < |b| ensures b[j].id != x {
          assert c[i].id != c[|a| + j].id;
        }
      }
    }
    if UniqueIds(a) && UniqueIds(b) && Ids(a) !! Ids(b) {
      forall i, j | 0 <= i < j < |c| ensures c[i].id != c[j].id {
        if i < |a| <= j {
          assert a[i].id in Ids(a) && b[j - |a|].id in Ids(b);
        }
      }
    }
  }

  lemma SingleId(b: Block)
    ensures Ids([b]) == {b.id}
  {
    assert [b][0].id in Ids([b]);
  }

  lemma KeptOrDropped(b: Block, rest: seq<Block>, tail: seq<Block>, dropped: bool)
    requires Tools(tail) == Tools(rest) && (UniqueIds(rest) ==> UniqueIds(tail)) && Ids(tail) <= Ids(rest)
    requires dropped ==> b.Text?
    ensures var kept := (if dropped then [] else [b]) + tail;
            Tools(kept) == Tools([b] + rest) && (UniqueIds([b] + rest) ==> UniqueIds(kept)) &&
            Ids(kept) <= Ids([b] + rest)
  {
    ToolsFirst(b, rest);
    IdsConcat([b], rest);
    if dropped {
      assert (if dropped then [] else [b]) + tail == tail;
    } else {
      ToolsFirst(b, tail);
      IdsConcat([b], tail);
    }
  }

  /** Validation of a saved list can drop prose over the size bound, never a tool marker. */
  lemma {:induction false} FittingKeepsTools(bs: seq<Block>, used: nat)
    ensures Tools(Fitting(bs, used)) == Tools(bs)
    ensures UniqueIds(bs) ==> UniqueIds(Fitting(bs, used))
    ensures Ids(Fitting(bs, used)) <= Ids(bs)
  {
    if bs != [] {
      var b, rest := bs[0], bs[1..];
      var dropped := b.Text? && used + |b.text| > MAX_CHARS;
      var used' := if dropped then used else used + Size(b);
      FittingKeepsTools(rest, used');
      assert bs == [b] + rest;
      assert Fitting(bs, used) == (if dropped then [] else [b]) + Fitting(rest, used');
      KeptOrDropped(b, rest, Fitting(rest, used'), dropped);
    }
  }

  lemma {:induction false} WithoutKeepsIds(sim: Similarity, visible: seq<Block>, text: string)
    requires UniqueIds(visible)
    ensures UniqueIds(Without(sim, visible, text)) && Ids(Without(sim, visible, text)) <= Ids(visible)
  {
    if visible != [] {
      var v, rest := [visible[0]], visible[1..];
      assert visible == v + rest;
      IdsConcat(v, rest);
      WithoutKeepsIds(sim, rest, text);
      IdsConcat(if Matches(sim, visible[0], text) then [] else v, Without(sim, rest, text));
    }
  }

  lemma AbsorbKeepsIds(sim: Similarity, visible: seq<Block>, b: Block)
    requires UniqueIds(visible) && b.id !in Ids(visible)
    ensures UniqueIds(Absorb(sim, visible, b))
    ensures Ids(Absorb(sim, visible, b)) <= Ids(visible) + {b.id}
  {
    IdsConcat(visible, [b]);
    if b.Text? {
      var first := FirstMatch(sim, visible, b.text);
      if first < |visible| {
        var head, tail := visible[..first], visible[first + 1..];
        var r := Replacement(visible[first], b);
        var kept := Without(sim, tail, b.text);
        assert visible == head + [visible[first]] + tail;
        IdsConcat(head + [visible[first]], tail);
        IdsConcat(head, [visible[first]]);
        SingleId(visible[first]);
        SingleId(r);
        IdsConcat(head, [r]);
        WithoutKeepsIds(sim, tail, b.text);
        IdsConcat(head + [r], kept);
      }
    }
  }

  lemma {:induction false} CollapseKeepsIds(sim: Similarity, visible: seq<Block>, items: seq<Block>)
    requires UniqueIds(visible) && UniqueIds(items) && Ids(visible) !! Ids(items)
    ensures UniqueIds(CollapseFrom(sim, visible, items))
    decreases |items|
  {
    if items != [] {
      var b, rest := items[0], items[1..];
      assert b.id in Ids(items);
      assert forall i :: 0 <= i < |rest| ==> rest[i] == items[i + 1];
      AbsorbKeepsIds(sim, visible, b);
      assert Ids(rest) <= Ids(items) && b.id !in Ids(rest);
      CollapseKeepsIds(sim, Absorb(sim, visible, b), rest);
    }
  }

  lemma MergeKeepsMarkers(sim: Similarity, was: seq<Block>, merged: seq<Block>)
    requires Grows(was, merged) && AllWellFormed(merged)
    ensures var out := Collapse(sim, Accepted(ToRaws(merged), 0));
            Tools(was) <= Tools(out) && (UniqueIds(merged) ==> UniqueIds(out))
  {
    GrowingKeepsTools(was, merged);
    AcceptedOwn(merged);
    FittingKeepsTools(merged, 0);
    CollapseKeepsTools(sim, [], Accepted(ToRaws(merged), 0));
    if UniqueIds(merged) {
      CollapseKeepsIds(sim, [], Accepted(ToRaws(merged), 0));
    }
  }

  /** A merge that receives anything stores a canonical list. Every tool marker saved before is still there,
      first and in the same order, and ids that were unique stay unique. */
  lemma MergeResult(sim: Similarity, previous: Stored, incoming: seq<Raw>)
    requires TieSymmetric(sim) && incoming != []
    ensures var out := Normalize(sim, MergeBlocks(sim, previous, incoming));
            MergeBlocks(sim, previous, incoming) == Items(ToRaws(out)) && Canonical(sim, out) &&
            Tools(Normalize(sim, previous)) <= Tools(out) &&
            (UniqueIds(Normalize(sim, previous)) ==> UniqueIds(out))
  {
    var merged := Merged(sim, previous, incoming);
    MergeGrows(sim, previous, incoming);
    NormalizeTwice(sim, Items(ToRaws(merged)));
    NormalizeIsCanonical(sim, Items(ToRaws(merged)));
    MergeKeepsMarkers(sim, Normalize(sim, previous), merged);
  }

  // ---------------------------------------------------------------- the loops

  method FindById(merged: seq<Block>, id: string, tool: bool) returns (n: nat)
    ensures n == SlotById(merged, id, tool, 0)
  {
    n := 0;
    while n < |merged| && !(merged[n].id == id && merged[n].Tool? == tool)
      invariant 0 <= n <= |merged|
      invariant SlotById(merged, id, tool, 0) == SlotById(merged, id, tool, n)
    {
      n := n + 1;
    }
  }

  method FindExact(merged: seq<Block>, matched: set<nat>, stable: bool, text: string) returns (index: Option<nat>)
    ensures index == ExactSlot(merged, matched, stable, text, 0)
  {
    var n := 0;
    while n < |merged|
      invariant 0 <= n <= |merged|
      invariant ExactSlot(merged, matched, stable, text, 0) == ExactSlot(merged, matched, stable, text, n)
    {
      if Candidate(merged, matched, stable, n) && merged[n].text == text {
        return Some(n);
      }
      n := n + 1;
    }
    index := None;
  }

  method FindGrowing(merged: seq<Block>, matched: set<nat>, stable: bool, text: string) returns (index: Option<nat>)
    ensures index == GrowingSlot(merged, matched, stable, text, |merged|)
  {
    index := None;
    for n := 0 to |merged|
      invariant index == GrowingSlot(merged, matched, stable, text, n)
    {
      if Candidate(merged, matched, stable, n) && HasPrefix(merged[n].text, text) &&
         (index.None? || |merged[index.value].text| <= |merged[n].text|) {
        index := Some(n);
      }
    }
  }

  method FindShrinking(merged: seq<Block>, matched: set<nat>, stable: bool, text: string) returns (index: Option<nat>)
    ensures index == ShrinkingSlot(merged, matched, stable, text, |merged|)
  {
    index := None;
    for n := 0 to |merged|
      invariant index == ShrinkingSlot(merged, matched, stable, text, n)
    {
      if Candidate(merged, matched, stable, n) && HasPrefix(text, merged[n].text) {
        index := Some(n);
      }
    }
  }

  /** Content before ids, unless the id itself is stable. */
  method ChooseSlot(merged: seq<Block>, matched: set<nat>, b: Block) returns (index: Option<nat>)
    ensures index == Slot(merged, matched, b)
  {
    var byId := FindById(merged, b.id, b.Tool?);
    index := if byId < |merged| then Some(byId) else None;
    if b.Text? && !(Stable(b) && byId < |merged|) {
      var exact := FindExact(merged, matched, Stable(b), b.text);
      var growing := FindGrowing(merged, matched, Stable(b), b.text);
      var shrinking := FindShrinking(merged, matched, Stable(b), b.text);
      index := if exact.Some? then exact else if growing.Some? then growing else shrinking;
    }
  }

  /** The first numbered id no block has; there is one below the bound. */
  method FindFree(merged: seq<Block>, prefix: string) returns (i: nat)
    requires |merged| < MAX_BLOCKS
    ensures i == FreeFrom(prefix, Ids(merged), 0) && i < MAX_BLOCKS && prefix + Dec(i) !in Ids(merged)
  {
    FewIds(merged);
    FreeIdExists(prefix, Ids(merged));
    i := 0;
    while i < MAX_BLOCKS && prefix + Dec(i) in Ids(merged)
      invariant 0 <= i <= MAX_BLOCKS
      invariant FreeFrom(prefix, Ids(merged), 0) == FreeFrom(prefix, Ids(merged), i)
    {
      i := i + 1;
    }
  }

  /** The block's own id, or a numbered one when that is taken. */
  method FreshId(merged: seq<Block>, b: Block) returns (identity: string)
    requires |merged| < MAX_BLOCKS
    ensures b.(id := identity) == Renamed(merged, b) && identity !in Ids(merged)
  {
    identity := b.id;
    if identity in Ids(merged) {
      var i := FindFree(merged, IdPrefix(b));
      identity := IdPrefix(b) + Dec(i);
    }
  }

  /** One incoming block edited into the list and the set of matched slots. */
  method MergeBlock(merged: seq<Block>, matched: set<nat>, b: Block)
    returns (merged': seq<Block>, matched': set<nat>)
    requires Sound(Progress(merged, matched)) && WellFormed(b)
    ensures Progress(merged', matched') == MergeOne(Progress(merged, matched), b)
  {
    merged', matched' := merged, matched;
    var index := ChooseSlot(merged, matched, b);
    if index.Some? {
      var i := index.value;
      matched' := matched + {i};
      if b.Text? && |b.text| >= |merged[i].text| {
        merged' := merged[i := Grown(merged[i], b)];
      }
      return;
    }
    if |merged| >= MAX_BLOCKS {
      return;
    }
    var identity := FreshId(merged, b);
    matched' := matched + {|merged|};
    merged' := merged + [b.(id := identity)];
  }

  method MergeDisplayBlocks(sim: Similarity, previous: Stored, incoming: seq<Raw>) returns (stored: Stored)
    requires TieSymmetric(sim)
    ensures stored == MergeBlocks(sim, previous, incoming)
  {
    if incoming == [] {
      return previous;
    }
    var merged := NormalizeDisplayBlocks(sim, previous);
    var blocks := NormalizeDisplayBlocks(sim, Items(incoming));
    NormalizeIsCanonical(sim, previous);
    NormalizeIsCanonical(sim, Items(incoming));
    var matched: set<nat> := {};
    for n := 0 to |blocks|
      invariant MergeAll(Progress(merged, matched), blocks[n..]) ==
                MergeAll(Progress(Normalize(sim, previous), {}), blocks)
      invariant Sound(Progress(merged, matched))
    {
      assert blocks[n..][0] == blocks[n] && blocks[n..][1..] == blocks[n + 1..];
      MergeOneSound(Progress(merged, matched), blocks[n]);
      merged, matched := MergeBlock(merged, matched, blocks[n]);
    }
    assert blocks[|blocks|..] == [];
    var result := NormalizeDisplayBlocks(sim, Items(ToRaws(merged)));
    stored := Items(ToRaws(result));
  }
}
