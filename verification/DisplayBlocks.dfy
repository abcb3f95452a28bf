/** Bounded transcript blocks and their canonical form. */
module DisplayBlocks {
  import opened Tables

  const MAX_BLOCKS := 256
  const MAX_CHARS := 2 * 1024 * 1024

  /** A member of a decoded JSON list: the keys the code reads, None when absent or not a string. */
  datatype Raw =
    | NotObject
    | Object(kind: Option<string>, id: Option<string>, text: Option<string>,
             toolId: Option<string>, seenAt: Option<string>)

  /** A stored JSON column after decoding. */
  datatype Stored = Unreadable | Items(items: seq<Raw>)

  datatype Block =
    | Text(id: string, text: string, seenAt: Option<string>)
    | Tool(id: string, toolId: Option<string>)

  /** The fuzzy prefix comparison of two bounded samples, `SequenceMatcher(...).ratio() >= 0.75`. */
  type Similarity = (string, string) -> bool

  function Take(s: string, n: nat): string {
    if |s| <= n then s else s[..n]
  }

  // ---------------------------------------------------------------- stripping

  predicate IsSpace(c: char) {
    var n := c as int;
    9 <= n <= 13 || 28 <= n <= 32 || n == 0x85 || n == 0xA0 || n == 0x1680 || 0x2000 <= n <= 0x200A
    || n == 0x2028 || n == 0x2029 || n == 0x202F || n == 0x205F || n == 0x3000
  }

  predicate Stripped(s: string) {
    s == "" || (!IsSpace(s[0]) && !IsSpace(s[|s| - 1]))
  }

  function Strip(s: string): (r: string)
    ensures Stripped(r) && |r| <= |s| && (Stripped(s) ==> r == s)
  {
    if s == "" then s
    else if IsSpace(s[0]) then Strip(s[1..])
    else if IsSpace(s[|s| - 1]) then Strip(s[..|s| - 1])
    else s
  }

  // ---------------------------------------------------------------- identifiers

  predicate Digit(c: char) { '0' <= c <= '9' }

  predicate Hex(c: char) { Digit(c) || 'a' <= c <= 'f' }

  predicate NumberedId(prefix: string, id: string) {
    HasPrefix(prefix, id) && 1 <= |id| - |prefix| <= 3 && forall i :: |prefix| <= i < |id| ==> Digit(id[i])
  }

  predicate DigestId(prefix: string, id: string) {
    HasPrefix(prefix, id) && |id| == |prefix| + 24 && forall i :: |prefix| <= i < |id| ==> Hex(id[i])
  }

  predicate TextId(id: string) { NumberedId("text-", id) || DigestId("sse-text-", id) }

  predicate DomToolId(id: string) { NumberedId("dom-tool-", id) }

  predicate StreamToolId(id: string) { DigestId("sse-tool-", id) }

  predicate CallChar(c: char) {
    Digit(c) || 'a' <= c <= 'z' || 'A' <= c <= 'Z' || c == '_' || c == '.' || c == ':' || c == '-'
  }

  predicate CallId(id: string) {
    1 <= |id| <= 100 && forall i :: 0 <= i < |id| ==> CallChar(id[i])
  }

  predicate SeenAt(s: string) {
    |s| >= 10 && (forall i :: 0 <= i < 10 ==> Digit(s[i])) &&
    (|s| == 10 || (12 <= |s| <= 17 && s[10] == '.' && forall i :: 11 <= i < |s| ==> Digit(s[i])))
  }

  // ---------------------------------------------------------------- item validation

  function Timing(seenAt: Option<string>): Option<string> {
    if seenAt.Some? && SeenAt(seenAt.value) then seenAt else None
  }

  /** One loop iteration of normalization, given the characters already kept. */
  function Accept(raw: Raw, used: nat): Option<Block> {
    match raw
    case NotObject => None
    case Object(kind, id, text, toolId, seenAt) =>
      if id.None? || kind.None? then None
      else if kind.value == "tool" then
        if DomToolId(id.value) then Some(Tool(id.value, None))
        else if StreamToolId(id.value) && toolId.Some? && CallId(toolId.value) then Some(Tool(id.value, toolId))
        else None
      else if kind.value == "text" && TextId(id.value) && text.Some? then
        var stripped := Strip(text.value);
        if stripped == "" || used + |stripped| > MAX_CHARS then None
        else Some(Text(id.value, stripped, Timing(seenAt)))
      else None
  }

  function Size(b: Block): nat {
    if b.Text? then |b.text| else 0
  }

  function Total(bs: seq<Block>): nat {
    if bs == [] then 0 else Size(bs[0]) + Total(bs[1..])
  }

  /** What one item becomes, given the characters already kept. */
  type Validator = (Raw, nat) -> Option<Block>

  /** The validating pass over a list of items. */
  function Validated(accept: Validator, raws: seq<Raw>, used: nat): (bs: seq<Block>)
    ensures |bs| <= |raws|
    decreases |raws|
  {
    if raws == [] then []
    else match accept(raws[0], used)
      case None => Validated(accept, raws[1..], used)
      case Some(b) => [b] + Validated(accept, raws[1..], used + Size(b))
  }

  function Accepted(raws: seq<Raw>, used: nat): (bs: seq<Block>)
    ensures |bs| <= |raws|
  {
    Validated(Accept, raws, used)
  }

  predicate WellFormed(b: Block) {
    match b
    case Text(id, text, seenAt) =>
      TextId(id) && text != "" && Stripped(text) && (seenAt.Some? ==> SeenAt(seenAt.value))
    case Tool(id, toolId) =>
      (DomToolId(id) && toolId.None?) || (StreamToolId(id) && toolId.Some? && CallId(toolId.value))
  }

  function ToRaw(b: Block): Raw {
    match b
    case Text(id, text, seenAt) => Object(Some("text"), Some(id), Some(text), None, seenAt)
    case Tool(id, toolId) => Object(Some("tool"), Some(id), None, toolId, None)
  }

  function ToRaws(bs: seq<Block>): (raws: seq<Raw>)
    ensures |raws| == |bs| && forall i :: 0 <= i < |bs| ==> raws[i] == ToRaw(bs[i])
  {
    seq(|bs|, i requires 0 <= i < |bs| => ToRaw(bs[i]))
  }

  /** The id families do not overlap. */
  lemma IdKinds(id: string)
    ensures !(TextId(id) && (DomToolId(id) || StreamToolId(id)))
    ensures !(DomToolId(id) && StreamToolId(id))
  {
    if HasPrefix("text-", id) { assert id[0] == 't'; }
    if HasPrefix("dom-tool-", id) { assert id[0] == 'd'; }
    if HasPrefix("sse-text-", id) { assert id[0] == 's' && id[5] == id[..9][5] == 'e'; }
    if HasPrefix("sse-tool-", id) { assert id[0] == 's' && id[5] == id[..9][5] == 'o'; }
  }

  /** A well-formed block is dropped by validation only when its prose exceeds the size bound. */
  lemma AcceptsItsOwn(b: Block, used: nat)
    requires WellFormed(b)
    ensures Accept(ToRaw(b), used) == if b.Text? && used + |b.text| > MAX_CHARS then None else Some(b)
  {
    IdKinds(b.id);
  }

  ghost predicate AllWellFormed(bs: seq<Block>) {
    forall i :: 0 <= i < |bs| ==> WellFormed(bs[i])
  }

  lemma TotalFirst(b: Block, rest: seq<Block>)
    ensures Total([b] + rest) == Size(b) + Total(rest)
  {
    assert ([b] + rest)[1..] == rest;
  }

  lemma {:induction false} ValidatedBounds(accept: Validator, good: Block -> bool, raws: seq<Raw>, used: nat)
    requires forall r, u: nat :: accept(r, u).Some? ==>
      good(accept(r, u).value) && (u <= MAX_CHARS ==> u + Size(accept(r, u).value) <= MAX_CHARS)
    requires used <= MAX_CHARS
    ensures used + Total(Validated(accept, raws, used)) <= MAX_CHARS
    ensures forall i :: 0 <= i < |Validated(accept, raws, used)| ==> good(Validated(accept, raws, used)[i])
    decreases |raws|
  {
    if raws != [] {
      match accept(raws[0], used)
      case None => ValidatedBounds(accept, good, raws[1..], used);
      case Some(b) =>
        ValidatedBounds(accept, good, raws[1..], used + Size(b));
        TotalFirst(b, Validated(accept, raws[1..], used + Size(b)));
    }
  }

  lemma AcceptIsBounded(raw: Raw, used: nat)
    ensures Accept(raw, used).Some? ==> WellFormed(Accept(raw, used).value)
    ensures Accept(raw, used).Some? && used <= MAX_CHARS ==> used + Size(Accept(raw, used).value) <= MAX_CHARS
  {
  }

  lemma AcceptedBounds(raws: seq<Raw>)
    ensures Total(Accepted(raws, 0)) <= MAX_CHARS && AllWellFormed(Accepted(raws, 0))
  {
    forall r, u: nat | Accept(r, u).Some?
      ensures WellFormed(Accept(r, u).value) && (u <= MAX_CHARS ==> u + Size(Accept(r, u).value) <= MAX_CHARS)
    {
      AcceptIsBounded(r, u);
    }
    ValidatedBounds(Accept, WellFormed, raws, 0);
  }

  /** The blocks a pass over a saved list keeps: prose over the size bound is dropped. */
  function Fitting(bs: seq<Block>, used: nat): seq<Block> {
    if bs == [] then []
    else if bs[0].Text? && used + |bs[0].text| > MAX_CHARS then Fitting(bs[1..], used)
    else [bs[0]] + Fitting(bs[1..], used + Size(bs[0]))
  }

  lemma {:induction false} ValidatedOwn(accept: Validator, bs: seq<Block>, used: nat)
    requires forall i, u: nat | 0 <= i < |bs| ::
      accept(ToRaw(bs[i]), u) == if bs[i].Text? && u + |bs[i].text| > MAX_CHARS then None else Some(bs[i])
    ensures Validated(accept, ToRaws(bs), used) == Fitting(bs, used)
    decreases |bs|
  {
    if bs != [] {
      var rest := bs[1..];
      assert ToRaws(bs)[1..] == ToRaws(rest) && ToRaws(bs)[0] == ToRaw(bs[0]);
      forall i, u: nat | 0 <= i < |rest|
        ensures accept(ToRaw(rest[i]), u) ==
                  if rest[i].Text? && u + |rest[i].text| > MAX_CHARS then None else Some(rest[i])
      {
        assert rest[i] == bs[i + 1];
      }
      ValidatedOwn(accept, rest, if bs[0].Text? && used + |bs[0].text| > MAX_CHARS then used else used + Size(bs[0]));
    }
  }

  lemma AcceptedOwn(bs: seq<Block>)
    requires AllWellFormed(bs)
    ensures Accepted(ToRaws(bs), 0) == Fitting(bs, 0)
  {
    forall i, u: nat | 0 <= i < |bs|
      ensures Accept(ToRaw(bs[i]), u) == if bs[i].Text? && u + |bs[i].text| > MAX_CHARS then None else Some(bs[i])
    {
      AcceptsItsOwn(bs[i], u);
    }
    ValidatedOwn(Accept, bs, 0);
  }

  lemma {:induction false} AllFit(bs: seq<Block>, used: nat)
    requires used + Total(bs) <= MAX_CHARS
    ensures Fitting(bs, used) == bs
  {
    if bs != [] {
      AllFit(bs[1..], used + Size(bs[0]));
    }
  }

  // ---------------------------------------------------------------- progressive versions

  /** Two renderings of one growing block: a long shared opening and a similar prefix. */
  predicate Progressive(sim: Similarity, first: string, second: string) {
    var (shorter, longer) := if |second| < |first| then (second, first) else (first, second);
    |shorter| >= 160 && shorter[..96] == longer[..96] &&
    sim(Take(shorter, 512), Take(longer, |Take(shorter, 512)| + 64))
  }

  /** The comparison does not depend on argument order when both texts have one length. */
  ghost predicate TieSymmetric(sim: Similarity) {
    forall a: string, b: string :: |a| == |b| ==> Progressive(sim, a, b) == Progressive(sim, b, a)
  }

  lemma ProgressiveSymmetric(sim: Similarity, a: string, b: string)
    requires TieSymmetric(sim)
    ensures Progressive(sim, a, b) == Progressive(sim, b, a)
  {
  }

  predicate Matches(sim: Similarity, prior: Block, text: string) {
    prior.Text? && Progressive(sim, prior.text, text)
  }

  function FirstMatch(sim: Similarity, visible: seq<Block>, text: string): (i: nat)
    ensures i <= |visible|
    ensures i < |visible| ==> Matches(sim, visible[i], text)
    ensures forall k :: 0 <= k < i ==> !Matches(sim, visible[k], text)
  {
    if visible == [] || Matches(sim, visible[0], text) then 0 else 1 + FirstMatch(sim, visible[1..], text)
  }

  function Longest(sim: Similarity, visible: seq<Block>, text: string): nat {
    if visible == [] then 0
    else
      var rest := Longest(sim, visible[1..], text);
      if Matches(sim, visible[0], text) && |visible[0].text| > rest then |visible[0].text| else rest
  }

  function Without(sim: Similarity, visible: seq<Block>, text: string): seq<Block> {
    if visible == [] then []
    else (if Matches(sim, visible[0], text) then [] else [visible[0]]) + Without(sim, visible[1..], text)
  }

  function Replacement(original: Block, b: Block): Block
    requires original.Text? && b.Text?
  {
    Text(original.id, b.text, if original.seenAt.Some? then original.seenAt else b.seenAt)
  }

  /** The visible list after one more block: a longer rendering takes the place of the first one it
      re-renders and removes the others; a shorter or equal one is dropped. */
  function Absorb(sim: Similarity, visible: seq<Block>, b: Block): seq<Block> {
    if b.Tool? then visible + [b]
    else
      var first := FirstMatch(sim, visible, b.text);
      if first == |visible| then visible + [b]
      else if |b.text| <= Longest(sim, visible, b.text) then visible
      else visible[..first] + [Replacement(visible[first], b)] + Without(sim, visible[first + 1..], b.text)
  }

  /** A block that re-renders a visible one is dropped, or takes the place of all it re-renders. */
  lemma AbsorbForms(sim: Similarity, visible: seq<Block>, b: Block)
    requires b.Text? && FirstMatch(sim, visible, b.text) < |visible|
    ensures var first := FirstMatch(sim, visible, b.text);
            var kept := Without(sim, visible[first + 1..], b.text);
            Absorb(sim, visible, b) == visible ||
            Absorb(sim, visible, b) == visible[..first] + [Replacement(visible[first], b)] + kept
  {
  }

  function CollapseFrom(sim: Similarity, visible: seq<Block>, items: seq<Block>): seq<Block>
    decreases |items|
  {
    if items == [] then visible else CollapseFrom(sim, Absorb(sim, visible, items[0]), items[1..])
  }

  function Collapse(sim: Similarity, items: seq<Block>): seq<Block> {
    CollapseFrom(sim, [], items)
  }

  function Normalize(sim: Similarity, value: Stored): seq<Block> {
    match value
    case Unreadable => []
    case Items(raws) => Collapse(sim, Accepted(if |raws| <= MAX_BLOCKS then raws else raws[..MAX_BLOCKS], 0))
  }

  // ---------------------------------------------------------------- canonical form

  ghost predicate Separated(sim: Similarity, bs: seq<Block>) {
    forall i, j :: 0 <= i < j < |bs| && bs[i].Text? && bs[j].Text? ==>
      !Progressive(sim, bs[i].text, bs[j].text)
  }

  ghost predicate Canonical(sim: Similarity, bs: seq<Block>) {
    |bs| <= MAX_BLOCKS && Total(bs) <= MAX_CHARS && AllWellFormed(bs) && Separated(sim, bs)
  }

  lemma {:induction false} WithoutKeeps(sim: Similarity, visible: seq<Block>, text: string)
    ensures |Without(sim, visible, text)| <= |visible|
    ensures Total(Without(sim, visible, text)) <= Total(visible)
    ensures forall b :: b in Without(sim, visible, text) ==> b in visible && !Matches(sim, b, text)
    ensures Separated(sim, visible) ==> Separated(sim, Without(sim, visible, text))
  {
    if visible != [] {
      var rest := Without(sim, visible[1..], text);
      WithoutKeeps(sim, visible[1..], text);
      assert Without(sim, visible, text) == if Matches(sim, visible[0], text) then rest else [visible[0]] + rest;
      assert !Matches(sim, visible[0], text) ==> Without(sim, visible, text)[1..] == rest;
      if Separated(sim, visible) {
        assert Separated(sim, visible[1..]);
        forall b | b in rest && b.Text? && visible[0].Text? ensures !Progressive(sim, visible[0].text, b.text) {
          assert b in visible[1..];
        }
      }
    }
  }

  lemma {:induction false} TotalAppend(a: seq<Block>, b: seq<Block>)
    ensures Total(a + b) == Total(a) + Total(b)
  {
    if a == [] {
      assert a + b == b;
    } else {
      TotalAppend(a[1..], b);
      assert (a + b)[1..] == a[1..] + b;
    }
  }

  lemma {:induction false} LongestBounds(sim: Similarity, visible: seq<Block>, text: string)
    ensures forall i :: 0 <= i < |visible| && Matches(sim, visible[i], text) ==>
              |visible[i].text| <= Longest(sim, visible, text)
    ensures Longest(sim, visible, text) > 0 ==>
              exists i :: 0 <= i < |visible| && Matches(sim, visible[i], text) &&
                          |visible[i].text| == Longest(sim, visible, text)
  {
    if visible != [] {
      LongestBounds(sim, visible[1..], text);
      if Longest(sim, visible, text) > 0 && Longest(sim, visible, text) == Longest(sim, visible[1..], text) {
        var i :| 0 <= i < |visible[1..]| && Matches(sim, visible[1..][i], text) &&
                 |visible[1..][i].text| == Longest(sim, visible, text);
        assert visible[i + 1] == visible[1..][i];
      }
    }
  }

  lemma SpliceSizes(visible: seq<Block>, first: nat, r: Block, kept: seq<Block>)
    requires first < |visible| && |kept| <= |visible| - first - 1 && Total(kept) <= Total(visible[first + 1..])
    ensures |visible[..first] + [r] + kept| <= |visible|
    ensures Total(visible[..first] + [r] + kept) <= Total(visible) + Size(r)
  {
    TotalAppend(visible[..first] + [r], kept);
    TotalAppend(visible[..first], [r]);
    assert visible == visible[..first] + visible[first..];
    assert visible[first..][1..] == visible[first + 1..];
    TotalAppend(visible[..first], visible[first..]);
  }

  lemma AbsorbSizes(sim: Similarity, visible: seq<Block>, b: Block)
    ensures |Absorb(sim, visible, b)| <= |visible| + 1
    ensures Total(Absorb(sim, visible, b)) <= Total(visible) + Size(b)
  {
    TotalAppend(visible, [b]);
    if b.Text? {
      var first := FirstMatch(sim, visible, b.text);
      if first < |visible| {
        var tail := visible[first + 1..];
        WithoutKeeps(sim, tail, b.text);
        SpliceSizes(visible, first, Replacement(visible[first], b), Without(sim, tail, b.text));
      }
    }
  }

  lemma AbsorbWellFormed(sim: Similarity, visible: seq<Block>, b: Block)
    requires AllWellFormed(visible) && WellFormed(b)
    ensures AllWellFormed(Absorb(sim, visible, b))
  {
    if b.Text? {
      var first := FirstMatch(sim, visible, b.text);
      if first < |visible| {
        WithoutKeeps(sim, visible[first + 1..], b.text);
        var out := visible[..first] + [Replacement(visible[first], b)] + Without(sim, visible[first + 1..], b.text);
        forall x | x in out ensures WellFormed(x) {
          if x !in visible[..first] && x != Replacement(visible[first], b) {
            assert x in visible[first + 1..];
          }
        }
      }
    }
  }

  ghost predicate Apart(sim: Similarity, a: seq<Block>, b: seq<Block>) {
    forall x, y :: x in a && y in b && x.Text? && y.Text? ==> !Progressive(sim, x.text, y.text)
  }

  lemma SeparatedConcat(sim: Similarity, a: seq<Block>, b: seq<Block>)
    requires Separated(sim, a) && Separated(sim, b) && Apart(sim, a, b)
    ensures Separated(sim, a + b)
  {
  }

  lemma AbsorbSeparated(sim: Similarity, visible: seq<Block>, b: Block)
    requires TieSymmetric(sim) && Separated(sim, visible)
    ensures Separated(sim, Absorb(sim, visible, b))
  {
    if b.Text? {
      var first := FirstMatch(sim, visible, b.text);
      if first < |visible| && |b.text| > Longest(sim, visible, b.text) {
        var head, tail := visible[..first], visible[first + 1..];
        var r := Replacement(visible[first], b);
        var kept := Without(sim, tail, b.text);
        WithoutKeeps(sim, tail, b.text);
        assert Separated(sim, tail);
        assert Apart(sim, head, [r]);
        SeparatedConcat(sim, head, [r]);
        forall x, y | x in head + [r] && y in kept && x.Text? && y.Text?
          ensures !Progressive(sim, x.text, y.text)
        {
          assert y in tail && !Matches(sim, y, b.text);
          ProgressiveSymmetric(sim, y.text, b.text);
        }
        SeparatedConcat(sim, head + [r], kept);
      }
    }
  }

  lemma {:induction false} CollapseFromCanonical(sim: Similarity, visible: seq<Block>, items: seq<Block>)
    requires TieSymmetric(sim)
    requires Separated(sim, visible) && AllWellFormed(visible) && AllWellFormed(items)
    ensures Separated(sim, CollapseFrom(sim, visible, items)) && AllWellFormed(CollapseFrom(sim, visible, items))
    ensures |CollapseFrom(sim, visible, items)| <= |visible| + |items|
    ensures Total(CollapseFrom(sim, visible, items)) <= Total(visible) + Total(items)
    decreases |items|
  {
    if items != [] {
      AbsorbSizes(sim, visible, items[0]);
      AbsorbWellFormed(sim, visible, items[0]);
      AbsorbSeparated(sim, visible, items[0]);
      CollapseFromCanonical(sim, Absorb(sim, visible, items[0]), items[1..]);
    }
  }

  lemma {:induction false} SeparatedIsFixed(sim: Similarity, visible: seq<Block>, items: seq<Block>)
    requires Separated(sim, visible + items)
    ensures CollapseFrom(sim, visible, items) == visible + items
    decreases |items|
  {
    if items != [] {
      var b := items[0];
      if b.Text? {
        forall k | 0 <= k < |visible| ensures !Matches(sim, visible[k], b.text) {
          assert (visible + items)[k] == visible[k] && (visible + items)[|visible|] == b;
        }
      }
      assert Absorb(sim, visible, b) == visible + [b];
      assert visible + [b] + items[1..] == visible + items;
      SeparatedIsFixed(sim, visible + [b], items[1..]);
    } else {
      assert visible + items == visible;
    }
  }

  /** Normalization yields a canonical form: bounded, valid, and free of progressive versions. */
  lemma NormalizeIsCanonical(sim: Similarity, value: Stored)
    requires TieSymmetric(sim)
    ensures Canonical(sim, Normalize(sim, value))
  {
    if value.Items? {
      var raws := if |value.items| <= MAX_BLOCKS then value.items else value.items[..MAX_BLOCKS];
      AcceptedBounds(raws);
      CollapseFromCanonical(sim, [], Accepted(raws, 0));
    }
  }

  /** A list is canonical exactly when normalizing its stored form gives it back. */
  lemma CanonicalIffFixed(sim: Similarity, bs: seq<Block>)
    requires TieSymmetric(sim)
    ensures Canonical(sim, bs) <==> Normalize(sim, Items(ToRaws(bs))) == bs
  {
    if Canonical(sim, bs) {
      AcceptedOwn(bs);
      AllFit(bs, 0);
      assert [] + bs == bs;
      SeparatedIsFixed(sim, [], bs);
    } else if Normalize(sim, Items(ToRaws(bs))) == bs {
      NormalizeIsCanonical(sim, Items(ToRaws(bs)));
    }
  }

  /** Normalizing, storing, decoding and normalizing again changes nothing. */
  lemma NormalizeTwice(sim: Similarity, value: Stored)
    requires TieSymmetric(sim)
    ensures Normalize(sim, Items(ToRaws(Normalize(sim, value)))) == Normalize(sim, value)
  {
    NormalizeIsCanonical(sim, value);
    CanonicalIffFixed(sim, Normalize(sim, value));
  }

  // ---------------------------------------------------------------- the loops

  lemma {:induction false} CollapseFromAppend(sim: Similarity, visible: seq<Block>, items: seq<Block>, b: Block)
    ensures CollapseFrom(sim, visible, items + [b]) == Absorb(sim, CollapseFrom(sim, visible, items), b)
    decreases |items|
  {
    if items == [] {
      assert items + [b] == [b] && [b][1..] == [];
    } else {
      assert (items + [b])[1..] == items[1..] + [b];
      CollapseFromAppend(sim, Absorb(sim, visible, items[0]), items[1..], b);
    }
  }

  lemma {:induction false} CollapseFromStep(sim: Similarity, items: seq<Block>, n: nat)
    requires n < |items|
    ensures Collapse(sim, items[..n + 1]) == Absorb(sim, Collapse(sim, items[..n]), items[n])
  {
    CollapseFromAppend(sim, [], items[..n], items[n]);
    assert items[..n + 1] == items[..n] + [items[n]];
  }

  lemma {:induction false} WithoutUnmatched(sim: Similarity, a: seq<Block>, rest: seq<Block>, text: string)
    requires forall k :: 0 <= k < |a| ==> !Matches(sim, a[k], text)
    ensures Without(sim, a + rest, text) == a + Without(sim, rest, text)
  {
    if a == [] {
      assert a + rest == rest;
    } else {
      assert (a + rest)[1..] == a[1..] + rest;
      WithoutUnmatched(sim, a[1..], rest, text);
    }
  }

  /** Increasing indices of exactly the blocks that match. */
  ghost predicate MatchList(sim: Similarity, visible: seq<Block>, text: string, matches: seq<nat>) {
    && (forall k :: 0 <= k < |matches| ==> matches[k] < |visible| && Matches(sim, visible[matches[k]], text))
    && (forall j, k :: 0 <= j < k < |matches| ==> matches[j] < matches[k])
    && (forall i :: 0 <= i < |visible| && Matches(sim, visible[i], text) ==> i in matches)
  }

  method FindMatches(sim: Similarity, visible: seq<Block>, text: string) returns (matches: seq<nat>)
    ensures MatchList(sim, visible, text, matches)
  {
    matches := [];
    for i := 0 to |visible|
      invariant forall k :: 0 <= k < |matches| ==> matches[k] < i && Matches(sim, visible[matches[k]], text)
      invariant forall j, k :: 0 <= j < k < |matches| ==> matches[j] < matches[k]
      invariant forall k :: 0 <= k < i && Matches(sim, visible[k], text) ==> k in matches
    {
      if Matches(sim, visible[i], text) {
        matches := matches + [i];
      }
    }
  }

  /** Every match lies at or before matches[k - 1], or at or after matches[k]. */
  lemma MatchGap(sim: Similarity, visible: seq<Block>, text: string, matches: seq<nat>, k: nat)
    requires MatchList(sim, visible, text, matches) && k <= |matches|
    ensures forall j :: 0 <= j < |visible| && Matches(sim, visible[j], text) ==>
              (k > 0 && j <= matches[k - 1]) || (k < |matches| && matches[k] <= j)
  {
    forall j | 0 <= j < |visible| && Matches(sim, visible[j], text)
      ensures (k > 0 && j <= matches[k - 1]) || (k < |matches| && matches[k] <= j)
    {
      var m :| 0 <= m < |matches| && matches[m] == j;
    }
  }

  lemma CutOut<T>(a: seq<T>, tail: seq<T>, q: nat, p: nat)
    requires q < p <= |a|
    ensures var left := a[..p] + tail;
            left[..q] + left[q + 1..] == a[..q] + (a[q + 1..p] + tail)
    ensures a[q..][1..] == a[q + 1..p] + a[p..]
  {
  }

  /** Deleting match q from a list whose matches from p on are gone leaves none from q on. */
  lemma DeleteStep(sim: Similarity, visible: seq<Block>, text: string, q: nat, p: nat)
    requires q < p <= |visible| && Matches(sim, visible[q], text)
    requires forall j :: q < j < p ==> !Matches(sim, visible[j], text)
    ensures var left := visible[..p] + Without(sim, visible[p..], text);
            left[..q] + left[q + 1..] == visible[..q] + Without(sim, visible[q..], text)
  {
    var tail := Without(sim, visible[p..], text);
    CutOut(visible, tail, q, p);
    WithoutUnmatched(sim, visible[q + 1..p], visible[p..], text);
    assert Without(sim, visible[q..], text) == visible[q + 1..p] + tail;
  }

  /** `del visible[index]` from the last match to the first. */
  method DeleteMatches(sim: Similarity, visible: seq<Block>, text: string, matches: seq<nat>)
    returns (left: seq<Block>)
    requires MatchList(sim, visible, text, matches)
    ensures left == Without(sim, visible, text)
  {
    left := visible;
    var k: nat := |matches|;
    ghost var p: nat := |visible|;
    assert visible[..p] == visible && visible[p..] == [];
    while k > 0
      invariant k <= |matches| && p <= |visible|
      invariant p == if k == |matches| then |visible| else matches[k]
      invariant left == visible[..p] + Without(sim, visible[p..], text)
    {
      MatchGap(sim, visible, text, matches, k);
      k := k - 1;
      var q := matches[k];
      assert q < p;
      DeleteStep(sim, visible, text, q, p);
      left := left[..q] + left[q + 1..];
      p := q;
    }
    MatchGap(sim, visible, text, matches, 0);
    WithoutUnmatched(sim, visible[..p], visible[p..], text);
    assert visible == visible[..p] + visible[p..];
  }

  method LongestMatch(visible: seq<Block>, matches: seq<nat>, ghost sim: Similarity, ghost text: string)
    returns (best: nat)
    requires MatchList(sim, visible, text, matches)
    ensures best == Longest(sim, visible, text)
  {
    best := 0;
    for m := 0 to |matches|
      invariant forall j :: 0 <= j < m ==> |visible[matches[j]].text| <= best
      invariant best > 0 ==> exists j :: 0 <= j < m && |visible[matches[j]].text| == best
    {
      if |visible[matches[m]].text| > best {
        best := |visible[matches[m]].text|;
      }
    }
    LongestBounds(sim, visible, text);
  }

  lemma WithoutAt(sim: Similarity, visible: seq<Block>, first: nat, text: string)
    requires first < |visible| && Matches(sim, visible[first], text)
    requires forall k :: 0 <= k < first ==> !Matches(sim, visible[k], text)
    ensures Without(sim, visible, text) == visible[..first] + Without(sim, visible[first + 1..], text)
  {
    WithoutUnmatched(sim, visible[..first], visible[first..], text);
    assert visible == visible[..first] + visible[first..];
    assert visible[first..][1..] == visible[first + 1..];
  }

  lemma WithoutFromFirst(sim: Similarity, visible: seq<Block>, text: string)
    requires FirstMatch(sim, visible, text) < |visible|
    ensures var first := FirstMatch(sim, visible, text);
            Without(sim, visible, text) == visible[..first] + Without(sim, visible[first + 1..], text)
  {
    WithoutAt(sim, visible, FirstMatch(sim, visible, text), text);
  }

  /** One block of the collapse, edited into the visible list. */
  method AbsorbBlock(sim: Similarity, visible: seq<Block>, block: Block) returns (out: seq<Block>)
    ensures out == Absorb(sim, visible, block)
  {
    if block.Tool? {
      return visible + [block];
    }
    var matches := FindMatches(sim, visible, block.text);
    if matches == [] {
      return visible + [block];
    }
    var first := matches[0];
    assert first == FirstMatch(sim, visible, block.text) by {
      MatchGap(sim, visible, block.text, matches, 0);
    }
    var best := LongestMatch(visible, matches, sim, block.text);
    if |block.text| <= best {
      return visible;
    }
    out := DeleteMatches(sim, visible, block.text, matches);
    WithoutFromFirst(sim, visible, block.text);
    out := out[..first] + [Replacement(visible[first], block)] + out[first..];
  }

  method CollapseProgressiveVersions(sim: Similarity, items: seq<Block>) returns (visible: seq<Block>)
    ensures visible == Collapse(sim, items)
  {
    visible := [];
    for n := 0 to |items|
      invariant visible == Collapse(sim, items[..n])
    {
      CollapseFromStep(sim, items, n);
      visible := AbsorbBlock(sim, visible, items[n]);
    }
    assert items[..|items|] == items;
  }

  /** What the validating pass keeps of one more item. */
  function Kept(candidate: Option<Block>): seq<Block> {
    match candidate case None => [] case Some(b) => [b]
  }

  lemma {:induction false} ValidatedAppend(accept: Validator, raws: seq<Raw>, r: Raw, used: nat)
    ensures Validated(accept, raws + [r], used) ==
              Validated(accept, raws, used) + Kept(accept(r, used + Total(Validated(accept, raws, used))))
    decreases |raws|
  {
    if raws == [] {
      assert raws + [r] == [r] && [r][1..] == [];
    } else {
      assert (raws + [r])[1..] == raws[1..] + [r];
      match accept(raws[0], used)
      case None => ValidatedAppend(accept, raws[1..], r, used);
      case Some(b) =>
        ValidatedAppend(accept, raws[1..], r, used + Size(b));
        TotalFirst(b, Validated(accept, raws[1..], used + Size(b)));
    }
  }

  lemma AcceptedNext(raws: seq<Raw>, n: nat)
    requires n < |raws|
    ensures var items := Accepted(raws[..n], 0);
            Accepted(raws[..n + 1], 0) == items + Kept(Accept(raws[n], Total(items)))
  {
    ValidatedAppend(Accept, raws[..n], raws[n], 0);
    assert raws[..n + 1] == raws[..n] + [raws[n]];
  }

  /** One bounded, validating pass followed by the collapse of progressive versions. */
  method NormalizeDisplayBlocks(sim: Similarity, value: Stored) returns (blocks: seq<Block>)
    ensures blocks == Normalize(sim, value)
  {
    if value.Unreadable? {
      return [];
    }
    var raws := if |value.items| <= MAX_BLOCKS then value.items else value.items[..MAX_BLOCKS];
    var items: seq<Block>, length: nat := [], 0;
    for n := 0 to |raws|
      invariant items == Accepted(raws[..n], 0)
      invariant length == Total(items)
    {
      AcceptedNext(raws, n);
      var candidate := Accept(raws[n], length);
      if candidate.Some? {
        TotalAppend(items, [candidate.value]);
        items := items + [candidate.value];
        length := length + Size(candidate.value);
      }
    }
    assert raws[..|raws|] == raws;
    blocks := CollapseProgressiveVersions(sim, items);
  }
}
