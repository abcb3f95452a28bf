/** Follow-ups written before the first delivery is claimed are merged into its prompt: the prompt is
    conserved, frozen by the claim, and a retried request is recognised. */
module Followups {
  import opened Tables
  import opened Captures
  import opened DisplayBlocks
  import Q = DeliveryQueue
  import R = Responses
  import P = Replies
  import PR = ReplyRuns

  const SEPARATOR := "\n\n"

  /** The content digest stored in merged receipts. */
  type Digest = string -> string

  ghost predicate NeverEmpty(hash: Digest) {
    forall s :: hash(s) != ""
  }

  ghost predicate Injective(hash: Digest) {
    forall a, b :: hash(a) == hash(b) ==> a == b
  }

  /** `originals` and `told` are history: the prompt each delivery was enqueued with, and the responses the
      queue itself created. */
  datatype World = World(
    now: Time, rows: seq<Q.Delivery>, responses: R.Table, replies: seq<P.Reply>,
    originals: map<string, string>, told: set<string>)

  // ---------------------------------------------------------------- the merge

  /** The untouched delivery of a chat from row `from` on; |rows| when there is none. */
  function FindUntouched(rows: seq<Q.Delivery>, send: string, from: nat := 0): (i: nat)
    requires from <= |rows|
    ensures from <= i <= |rows|
    ensures i < |rows| ==> rows[i].sendId == send && Q.Untouched(rows[i])
    ensures forall k :: from <= k < i ==> !(rows[k].sendId == send && Q.Untouched(rows[k]))
    decreases |rows| - from
  {
    if from == |rows| || (rows[from].sendId == send && Q.Untouched(rows[from])) then from
    else FindUntouched(rows, send, from + 1)
  }

  function FirstMerged(replies: seq<P.Reply>, send: string, from: nat := 0): (i: nat)
    requires from <= |replies|
    ensures from <= i <= |replies|
    ensures i < |replies| ==> replies[i].sendId == send && replies[i].status.Merged?
    ensures forall k :: from <= k < i ==> !(replies[k].sendId == send && replies[k].status.Merged?)
    decreases |replies| - from
  {
    if from == |replies| || (replies[from].sendId == send && replies[from].status.Merged?) then from
    else FirstMerged(replies, send, from + 1)
  }

  /** No reply of the chat is more than a merged receipt. */
  predicate OnlyMerged(replies: seq<P.Reply>, send: string) {
    forall i :: 0 <= i < |replies| && replies[i].sendId == send ==> replies[i].status.Merged?
  }

  function Combined(message: string, text: string): string { message + SEPARATOR + text }

  predicate Mergeable(w: World, send: string, text: string) {
    send in w.responses && w.responses[send].status.Queued? && OnlyMerged(w.replies, send) &&
    var k := FindUntouched(w.rows, send);
    k < |w.rows| && |Combined(w.rows[k].message, text)| <= P.MAX_FOLLOWUP
  }

  /** The digest of the prompt before any merge. */
  function InitialHash(hash: Digest, replies: seq<P.Reply>, send: string, message: string): string {
    var i := FirstMerged(replies, send);
    if i < |replies| && replies[i].messageId != "" then replies[i].messageId else hash(message)
  }

  function Receipt(send: string, replyId: string, text: string, digest: string, at: Time): P.Reply {
    P.NewReply(replyId, send, "", "", text, digest, P.Merged, true, at)
  }

  /** The three tables after the follow-up became part of row k's prompt. */
  function MergeInto(env: Env, hash: Digest, w: World, k: nat, replyId: string, text: string): World
    requires k < |w.rows|
  {
    var send, message := w.rows[k].sendId, w.rows[k].message;
    var combined := Combined(message, text);
    w.(rows := Q.Apply(w.rows, w.now, Q.EditPrompt(send, combined)),
       responses := R.Apply(env, w.responses, R.One(send, R.Retell(combined)), w.now),
       replies := w.replies + [Receipt(send, replyId, text, InitialHash(hash, w.replies, send, message), w.now)])
  }

  function Followup(env: Env, hash: Digest, w: World, send: string, replyId: string, text: string,
                    attached: bool): World {
    if !P.FollowupAllowed(w.replies, w.responses, send, replyId, text) then w
    else if attached && Mergeable(w, send, text)
    then MergeInto(env, hash, w, FindUntouched(w.rows, send), replyId, text)
    else w.(replies := P.Apply(env, w.replies, w.responses, P.Followup(send, replyId, text), w.now))
  }

  // ---------------------------------------------------------------- steps

  datatype Event =
    | Advance(seconds: Time)
    | Enqueue(request: Q.Request)
    | TellQueued(id: string, jobName: string)
    | TellDispatched(id: string, text: string, jobName: string)
    | Queue(qop: Q.Op)
    | Respond(rop: R.Op)
    | Reply(pop: P.Op)
    | FollowUp(send: string, replyId: string, text: string, attached: bool)

  function FindRow(rows: seq<Q.Delivery>, id: string, from: nat := 0): (i: nat)
    requires from <= |rows|
    ensures from <= i <= |rows|
    ensures i < |rows| ==> rows[i].sendId == id
    ensures forall k :: from <= k < i ==> rows[k].sendId != id
    decreases |rows| - from
  {
    if from == |rows| || rows[from].sendId == id then from else FindRow(rows, id, from + 1)
  }

  function Advanced(w: World, seconds: Time): World {
    if seconds >= 0.0 then w.(now := w.now + seconds) else w
  }

  function Enqueued(w: World, r: Q.Request): World {
    if r.sendId != "" && r.message != "" && Q.Fresh(w.rows, r) then
      w.(rows := Q.Apply(w.rows, w.now, Q.Enqueue(r)), originals := w.originals[r.sendId := r.message])
    else w
  }

  /** The queue creates the response of a row it holds, with that row's prompt. */
  function ToldByQueue(env: Env, w: World, id: string, jobName: string): World {
    var k := FindRow(w.rows, id);
    if k < |w.rows| then
      w.(responses := R.Apply(env, w.responses, R.Ensure(id, w.rows[k].message, jobName), w.now),
         told := if id in w.responses then w.told else w.told + {id})
    else w
  }

  /** The sender creates the response of a claimed row, with whatever text it dispatches. */
  function ToldBySender(env: Env, w: World, id: string, text: string, jobName: string): World {
    var k := FindRow(w.rows, id);
    if k < |w.rows| && w.rows[k].status.Running? then
      w.(responses := R.Apply(env, w.responses, R.Ensure(id, text, jobName), w.now))
    else w
  }

  function QueueWritten(w: World, op: Q.Op): World {
    if op.EditPrompt? || op.Enqueue? then w else w.(rows := Q.Apply(w.rows, w.now, op))
  }

  function ResponseWritten(env: Env, w: World, op: R.Op): World {
    if op.Ensure? || (op.One? && op.op.Retell?) then w else w.(responses := R.Apply(env, w.responses, op, w.now))
  }

  function ReplyWritten(env: Env, w: World, op: P.Op): World {
    if op.Merge? then w else w.(replies := P.Apply(env, w.replies, w.responses, op, w.now))
  }

  /** Every other write of the three tables may happen in between; prompts change through FollowUp only. */
  function Step(env: Env, hash: Digest, w: World, e: Event): World {
    match e
    case Advance(s) => Advanced(w, s)
    case Enqueue(r) => Enqueued(w, r)
    case TellQueued(id, jobName) => ToldByQueue(env, w, id, jobName)
    case TellDispatched(id, text, jobName) => ToldBySender(env, w, id, text, jobName)
    case Queue(op) => QueueWritten(w, op)
    case Respond(op) => ResponseWritten(env, w, op)
    case Reply(op) => ReplyWritten(env, w, op)
    case FollowUp(send, replyId, text, attached) => Followup(env, hash, w, send, replyId, text, attached)
  }

  function Run(env: Env, hash: Digest, w: World, events: seq<Event>): World
    decreases |events|
  {
    if events == [] then w else Run(env, hash, Step(env, hash, w, events[0]), events[1..])
  }

  function Start(now: Time): World { World(now, [], map[], [], map[], {}) }

  // ---------------------------------------------------------------- conservation

  /** What the merged follow-ups among the first n replies add to a chat's prompt, in order. */
  function Tail(replies: seq<P.Reply>, n: nat, send: string): string
    requires n <= |replies|
  {
    if n == 0 then ""
    else
      var last := replies[n - 1];
      Tail(replies, n - 1, send) +
      if last.sendId == send && last.status.Merged? then SEPARATOR + last.userText else ""
  }

  function Merges(replies: seq<P.Reply>, send: string): string { Tail(replies, |replies|, send) }

  ghost predicate RowOk(w: World, d: Q.Delivery) {
    d.sendId in w.originals && d.message == w.originals[d.sendId] + Merges(w.replies, d.sendId) &&
    (d.sendId in w.told ==>
       d.sendId in w.responses && w.responses[d.sendId].userText == Take(d.message, MAX_CHARS)) &&
    (Q.Untouched(d) && d.sendId in w.responses ==> d.sendId in w.told)
  }

  ghost predicate ReceiptOk(hash: Digest, w: World, r: P.Reply) {
    r.status.Merged? ==> r.sendId in w.originals && r.messageId == hash(w.originals[r.sendId])
  }

  function Ids(rows: seq<Q.Delivery>): set<string> {
    set i | 0 <= i < |rows| :: rows[i].sendId
  }

  ghost predicate Conserved(hash: Digest, w: World) {
    && w.told <= w.responses.Keys <= w.originals.Keys == Ids(w.rows)
    && (forall i :: 0 <= i < |w.rows| ==> RowOk(w, w.rows[i]))
    && (forall i :: 0 <= i < |w.replies| ==> ReceiptOk(hash, w, w.replies[i]))
  }

  ghost predicate Inv(hash: Digest, w: World) {
    Q.Valid(w.rows) && Conserved(hash, w)
  }

  lemma {:induction false} SameTail(a: seq<P.Reply>, b: seq<P.Reply>, n: nat, send: string)
    requires n <= |a| && n <= |b|
    requires forall i :: 0 <= i < n ==>
               a[i].sendId == b[i].sendId && a[i].userText == b[i].userText &&
               (a[i].status.Merged? <==> b[i].status.Merged?)
    ensures Tail(a, n, send) == Tail(b, n, send)
  {
    if n > 0 {
      SameTail(a, b, n - 1, send);
    }
  }

  lemma MergesGrow(a: seq<P.Reply>, r: P.Reply, send: string)
    ensures Merges(a + [r], send) ==
              Merges(a, send) + if r.sendId == send && r.status.Merged? then SEPARATOR + r.userText else ""
  {
    SameTail(a, a + [r], |a|, send);
  }

  lemma OtherMergesSame(a: seq<P.Reply>, r: P.Reply, send: string)
    requires r.sendId != send || !r.status.Merged?
    ensures Merges(a + [r], send) == Merges(a, send)
  {
    MergesGrow(a, r, send);
  }

  lemma {:induction false} NoReceiptsNoTail(replies: seq<P.Reply>, n: nat, send: string)
    requires n <= |replies|
    requires forall i :: 0 <= i < n && replies[i].sendId == send ==> !replies[i].status.Merged?
    ensures Tail(replies, n, send) == ""
  {
    if n > 0 {
      NoReceiptsNoTail(replies, n - 1, send);
    }
  }

  lemma NewRowIsNotMerged(env: Env, replies: seq<P.Reply>, responses: R.Table, op: P.Op, at: Time)
    requires !op.Merge? && |P.Apply(env, replies, responses, op, at)| > |replies|
    ensures !P.Apply(env, replies, responses, op, at)[|replies|].status.Merged?
  {
  }

  ghost predicate SameReceipts(replies: seq<P.Reply>, after: seq<P.Reply>) {
    && |replies| <= |after| <= |replies| + 1
    && (forall i :: 0 <= i < |replies| ==>
          after[i].sendId == replies[i].sendId && after[i].userText == replies[i].userText &&
          (replies[i].status.Merged? || after[i].status.Merged? ==> after[i] == replies[i]))
    && (|after| > |replies| ==> !after[|replies|].status.Merged?)
  }

  lemma KeptReceipt(r: P.Reply, after: P.Reply)
    requires PR.Keeps(r, after)
    ensures after.sendId == r.sendId && after.userText == r.userText
    ensures r.status.Merged? || after.status.Merged? ==> after == r
  {
  }

  lemma BindingKeepsReceipts(replies: seq<P.Reply>, responses: R.Table, exclude: set<string>, at: Time)
    ensures SameReceipts(replies, P.BindNextIn(replies, responses, exclude, at))
  {
  }

  /** No reply operation but the merge touches a receipt, or makes one. */
  lemma ReceiptsAreKept(env: Env, replies: seq<P.Reply>, responses: R.Table, op: P.Op, at: Time)
    requires !op.Merge?
    ensures SameReceipts(replies, P.Apply(env, replies, responses, op, at))
  {
    if op.BindNext? {
      BindingKeepsReceipts(replies, responses, op.exclude, at);
    } else {
      var after := P.Apply(env, replies, responses, op, at);
      PR.ApplyKeeps(env, replies, responses, op, at);
      if |after| > |replies| {
        NewRowIsNotMerged(env, replies, responses, op, at);
      }
      forall i | 0 <= i < |replies|
        ensures after[i].sendId == replies[i].sendId && after[i].userText == replies[i].userText
        ensures replies[i].status.Merged? || after[i].status.Merged? ==> after[i] == replies[i]
      {
        assert !PR.Bound(replies, responses, op, at, i);
        KeptReceipt(replies[i], after[i]);
      }
    }
  }

  lemma SameReceiptsSameTail(replies: seq<P.Reply>, after: seq<P.Reply>, send: string)
    requires SameReceipts(replies, after)
    ensures Merges(after, send) == Merges(replies, send)
  {
    SameTail(replies, after, |replies|, send);
  }

  lemma ReplyFrame(hash: Digest, w: World, after: seq<P.Reply>)
    requires Conserved(hash, w) && SameReceipts(w.replies, after)
    ensures Conserved(hash, w.(replies := after))
  {
    var next := w.(replies := after);
    forall i | 0 <= i < |w.rows| ensures RowOk(next, w.rows[i]) {
      assert RowOk(w, w.rows[i]);
      SameReceiptsSameTail(w.replies, after, w.rows[i].sendId);
    }
    forall i | 0 <= i < |after| ensures ReceiptOk(hash, next, after[i]) {
      if after[i].status.Merged? {
        assert ReceiptOk(hash, w, w.replies[i]);
      }
    }
  }

  lemma ReplyKeepsInv(env: Env, hash: Digest, w: World, op: P.Op)
    requires Inv(hash, w)
    ensures Inv(hash, ReplyWritten(env, w, op))
  {
    if !op.Merge? {
      ReceiptsAreKept(env, w.replies, w.responses, op, w.now);
      ReplyFrame(hash, w, P.Apply(env, w.replies, w.responses, op, w.now));
    }
  }

  lemma UntouchedIsNotRegained(rows: seq<Q.Delivery>, at: Time, op: Q.Op, i: nat)
    requires i < |rows| && Q.LeaseShape(rows[i]) && !op.EditPrompt?
    ensures i < |Q.Apply(rows, at, op)|
    ensures Q.Untouched(Q.Apply(rows, at, op)[i]) ==> Q.Untouched(rows[i])
    ensures Q.Apply(rows, at, op)[i].message == rows[i].message && Q.Apply(rows, at, op)[i].sendId == rows[i].sendId
  {
    match op
    case ClaimNext(owner, lease, captures, maxActive) => Q.ClaimEffect(rows, at, owner, lease, captures, maxActive);
    case _ =>
  }

  lemma SameIds(rows: seq<Q.Delivery>, after: seq<Q.Delivery>)
    requires |after| == |rows| && forall i :: 0 <= i < |rows| ==> after[i].sendId == rows[i].sendId
    ensures Ids(after) == Ids(rows)
  {
    assert forall i :: 0 <= i < |rows| ==> rows[i].sendId in Ids(rows) && after[i].sendId in Ids(after);
  }

  ghost predicate SamePrompts(rows: seq<Q.Delivery>, after: seq<Q.Delivery>) {
    |after| == |rows| &&
    forall i :: 0 <= i < |rows| ==>
      after[i].sendId == rows[i].sendId && after[i].message == rows[i].message &&
      (Q.Untouched(after[i]) ==> Q.Untouched(rows[i]))
  }

  lemma QueueFrame(hash: Digest, w: World, after: seq<Q.Delivery>)
    requires Conserved(hash, w) && SamePrompts(w.rows, after)
    ensures Conserved(hash, w.(rows := after))
  {
    var next := w.(rows := after);
    forall i | 0 <= i < |after| ensures RowOk(next, after[i]) {
      assert RowOk(w, w.rows[i]);
    }
    forall i | 0 <= i < |w.replies| ensures ReceiptOk(hash, next, w.replies[i]) {
      assert ReceiptOk(hash, w, w.replies[i]);
    }
    SameIds(w.rows, after);
  }

  lemma QueueKeepsLength(rows: seq<Q.Delivery>, at: Time, op: Q.Op)
    requires !op.Enqueue?
    ensures |Q.Apply(rows, at, op)| == |rows|
  {
    if op.ClaimNext? {
      Q.ClaimEffect(rows, at, op.owner, op.leaseSeconds, op.captures, op.maxActive);
    }
  }

  lemma SamePromptsAfter(rows: seq<Q.Delivery>, at: Time, op: Q.Op)
    requires Q.Valid(rows) && !op.EditPrompt? && !op.Enqueue?
    ensures SamePrompts(rows, Q.Apply(rows, at, op))
  {
    QueueKeepsLength(rows, at, op);
    forall i | 0 <= i < |rows|
      ensures var after := Q.Apply(rows, at, op);
              after[i].sendId == rows[i].sendId && after[i].message == rows[i].message &&
              (Q.Untouched(after[i]) ==> Q.Untouched(rows[i]))
    {
      UntouchedIsNotRegained(rows, at, op, i);
    }
  }

  lemma QueueKeepsInv(hash: Digest, w: World, op: Q.Op)
    requires Inv(hash, w)
    ensures Inv(hash, QueueWritten(w, op))
  {
    if !op.EditPrompt? && !op.Enqueue? {
      Q.ApplyKeepsRows(w.rows, w.now, op);
      SamePromptsAfter(w.rows, w.now, op);
      QueueFrame(hash, w, Q.Apply(w.rows, w.now, op));
    }
  }

  lemma AppendedIds(rows: seq<Q.Delivery>, d: Q.Delivery)
    ensures Ids(rows + [d]) == Ids(rows) + {d.sendId}
  {
    assert (rows + [d])[|rows|] == d;
    assert forall i :: 0 <= i < |rows| ==> (rows + [d])[i] == rows[i];
  }

  lemma OtherRowOk(hash: Digest, w: World, id: string, message: string, rows: seq<Q.Delivery>, i: nat)
    requires Conserved(hash, w) && i < |w.rows| && id !in Ids(w.rows)
    ensures RowOk(w.(rows := rows, originals := w.originals[id := message]), w.rows[i])
  {
    assert RowOk(w, w.rows[i]);
    assert w.rows[i].sendId in Ids(w.rows);
  }

  lemma FreshHasNoTail(hash: Digest, w: World, id: string)
    requires Conserved(hash, w) && id !in Ids(w.rows)
    ensures Merges(w.replies, id) == ""
  {
    forall i | 0 <= i < |w.replies| && w.replies[i].sendId == id ensures !w.replies[i].status.Merged? {
      assert ReceiptOk(hash, w, w.replies[i]);
    }
    NoReceiptsNoTail(w.replies, |w.replies|, id);
  }

  lemma NewRowOk(hash: Digest, w: World, message: string, d: Q.Delivery)
    requires Conserved(hash, w) && d.message == message && d.sendId !in Ids(w.rows)
    ensures RowOk(w.(rows := w.rows + [d], originals := w.originals[d.sendId := message]), d)
  {
    FreshHasNoTail(hash, w, d.sendId);
  }

  lemma EnqueueFrame(hash: Digest, w: World, message: string, d: Q.Delivery)
    requires Conserved(hash, w) && d.message == message && d.sendId !in Ids(w.rows)
    ensures Conserved(hash, w.(rows := w.rows + [d], originals := w.originals[d.sendId := message]))
  {
    var after := w.(rows := w.rows + [d], originals := w.originals[d.sendId := message]);
    AppendedIds(w.rows, d);
    NewRowOk(hash, w, message, d);
    forall i | 0 <= i < |w.replies| ensures ReceiptOk(hash, after, w.replies[i]) {
      assert ReceiptOk(hash, w, w.replies[i]);
    }
    forall i | 0 <= i < |w.rows| ensures RowOk(after, w.rows[i]) {
      OtherRowOk(hash, w, d.sendId, message, after.rows, i);
    }
  }

  lemma EnqueueKeepsInv(hash: Digest, w: World, r: Q.Request)
    requires Inv(hash, w)
    ensures Inv(hash, Enqueued(w, r))
  {
    if r.sendId != "" && r.message != "" && Q.Fresh(w.rows, r) {
      Q.ApplyKeepsRows(w.rows, w.now, Q.Enqueue(r));
      EnqueueFrame(hash, w, r.message, Q.NewRow(r));
    }
  }

  /** Once an enqueued delivery is known, only the merge rewrites the prompt saved with its response. */
  lemma PromptTextIsKept(env: Env, responses: R.Table, op: R.Op, at: Time, id: string)
    requires id in responses && !(op.One? && op.op.Retell?)
    ensures id in R.Apply(env, responses, op, at) &&
            R.Apply(env, responses, op, at)[id].userText == responses[id].userText
  {
    R.ApplyIsPointwise(env, responses, op, at, id);
  }

  /** A response that appears is either told the current prompt, or belongs to a touched delivery. */
  ghost predicate SameTexts(w: World, responses: R.Table, told: set<string>) {
    && (forall id :: id in w.responses ==> id in responses && responses[id].userText == w.responses[id].userText)
    && (forall id :: id in told ==> id in responses && (id in w.told || id !in w.responses))
    && (forall id :: id in w.told ==> id in told)
    && (forall id :: id in responses && id !in w.responses ==> id in w.originals)
    && (forall i :: 0 <= i < |w.rows| ==>
          var d := w.rows[i];
          d.sendId in responses && d.sendId !in w.responses ==>
            if d.sendId in told then responses[d.sendId].userText == Take(d.message, MAX_CHARS) else !Q.Untouched(d))
  }

  lemma ResponseFrame(hash: Digest, w: World, responses: R.Table, told: set<string>)
    requires Conserved(hash, w) && SameTexts(w, responses, told)
    ensures Conserved(hash, w.(responses := responses, told := told))
  {
    var after := w.(responses := responses, told := told);
    forall i | 0 <= i < |w.rows| ensures RowOk(after, w.rows[i]) {
      assert RowOk(w, w.rows[i]);
    }
    forall i | 0 <= i < |w.replies| ensures ReceiptOk(hash, after, w.replies[i]) {
      assert ReceiptOk(hash, w, w.replies[i]);
    }
  }

  lemma RespondKeepsInv(env: Env, hash: Digest, w: World, op: R.Op)
    requires Inv(hash, w)
    ensures Inv(hash, ResponseWritten(env, w, op))
  {
    if !op.Ensure? && !(op.One? && op.op.Retell?) {
      var after := R.Apply(env, w.responses, op, w.now);
      forall id | id in w.responses ensures id in after && after[id].userText == w.responses[id].userText {
        PromptTextIsKept(env, w.responses, op, w.now, id);
      }
      forall id | id in after && id !in w.responses ensures false {
        R.NewRowsAreQueued(env, w.responses, op, w.now, id);
      }
      ResponseFrame(hash, w, after, w.told);
    }
  }

  lemma EnsureTexts(env: Env, w: World, k: nat, text: string, jobName: string, told: set<string>)
    requires k < |w.rows| && w.told <= w.responses.Keys && w.rows[k].sendId in w.originals
    requires forall i :: 0 <= i < |w.rows| && w.rows[i].sendId == w.rows[k].sendId ==> i == k
    requires var id := w.rows[k].sendId;
             if id in w.responses then told == w.told
             else (told == w.told + {id} && text == w.rows[k].message) || (told == w.told && !Q.Untouched(w.rows[k]))
    ensures SameTexts(w, R.Apply(env, w.responses, R.Ensure(w.rows[k].sendId, text, jobName), w.now), told)
  {
  }

  lemma TellKeepsInv(env: Env, hash: Digest, w: World, k: nat, text: string, jobName: string, told: set<string>)
    requires Inv(hash, w) && k < |w.rows|
    requires var id := w.rows[k].sendId;
             if id in w.responses then told == w.told
             else (told == w.told + {id} && text == w.rows[k].message) || (told == w.told && !Q.Untouched(w.rows[k]))
    ensures Inv(hash, w.(responses := R.Apply(env, w.responses, R.Ensure(w.rows[k].sendId, text, jobName), w.now),
                         told := told))
  {
    var id := w.rows[k].sendId;
    var after := R.Apply(env, w.responses, R.Ensure(id, text, jobName), w.now);
    assert id in Ids(w.rows);
    assert forall i :: 0 <= i < |w.rows| && w.rows[i].sendId == id ==> i == k;
    EnsureTexts(env, w, k, text, jobName, told);
    ResponseFrame(hash, w, after, told);
  }

  lemma MergedPrompt(original: string, merged: string, text: string)
    ensures Combined(original + merged, text) == original + (merged + (SEPARATOR + text))
  {
    assert original + merged + SEPARATOR + text == original + (merged + (SEPARATOR + text));
  }

  lemma ToldByQueueKeepsInv(env: Env, hash: Digest, w: World, id: string, jobName: string)
    requires Inv(hash, w)
    ensures Inv(hash, ToldByQueue(env, w, id, jobName))
  {
    var k := FindRow(w.rows, id);
    if k < |w.rows| {
      TellKeepsInv(env, hash, w, k, w.rows[k].message, jobName, if id in w.responses then w.told else w.told + {id});
    }
  }

  lemma ToldBySenderKeepsInv(env: Env, hash: Digest, w: World, id: string, text: string, jobName: string)
    requires Inv(hash, w)
    ensures Inv(hash, ToldBySender(env, w, id, text, jobName))
  {
    var k := FindRow(w.rows, id);
    if k < |w.rows| && w.rows[k].status.Running? {
      TellKeepsInv(env, hash, w, k, text, jobName, w.told);
    }
  }

  lemma MergedRowOk(hash: Digest, w: World, k: nat, text: string, after: World, r: P.Reply)
    requires Conserved(hash, w) && k < |w.rows| && k < |after.rows|
    requires after.rows[k].sendId == w.rows[k].sendId == r.sendId &&
             after.rows[k].message == Combined(w.rows[k].message, text)
    requires r.status.Merged? && r.userText == text && after.replies == w.replies + [r] &&
             after.originals == w.originals
    requires |after.rows[k].message| <= MAX_CHARS && r.sendId in w.told && after.told == w.told
    requires r.sendId in after.responses && after.responses[r.sendId].userText == after.rows[k].message
    ensures RowOk(after, after.rows[k])
  {
    assert RowOk(w, w.rows[k]);
    MergesGrow(w.replies, r, r.sendId);
    MergedPrompt(w.originals[r.sendId], Merges(w.replies, r.sendId), text);
  }

  lemma UnmergedRowOk(hash: Digest, w: World, i: nat, after: World, r: P.Reply)
    requires Conserved(hash, w) && i < |w.rows| && w.rows[i].sendId != r.sendId
    requires after.replies == w.replies + [r] && after.originals == w.originals && after.told == w.told
    requires after.responses.Keys == w.responses.Keys
    requires w.rows[i].sendId in w.responses ==> after.responses[w.rows[i].sendId] == w.responses[w.rows[i].sendId]
    ensures RowOk(after, w.rows[i])
  {
    assert RowOk(w, w.rows[i]);
    OtherMergesSame(w.replies, r, w.rows[i].sendId);
  }

  /** The three tables after a merge into row k. */
  lemma MergeFrame(hash: Digest, w: World, k: nat, text: string, rows: seq<Q.Delivery>, responses: R.Table, r: P.Reply)
    requires Conserved(hash, w) && k < |w.rows| && |rows| == |w.rows|
    requires forall i :: 0 <= i < |rows| && i != k ==> rows[i] == w.rows[i] && rows[i].sendId != r.sendId
    requires rows[k].sendId == w.rows[k].sendId == r.sendId && rows[k].message == Combined(w.rows[k].message, text)
    requires r.status.Merged? && r.userText == text && r.sendId in w.originals &&
             r.messageId == hash(w.originals[r.sendId])
    requires |rows[k].message| <= MAX_CHARS && r.sendId in w.told && responses.Keys == w.responses.Keys
    requires forall id :: id in responses && id != r.sendId ==> responses[id] == w.responses[id]
    requires r.sendId in responses && responses[r.sendId].userText == rows[k].message
    ensures Conserved(hash, w.(rows := rows, responses := responses, replies := w.replies + [r]))
  {
    var after := w.(rows := rows, responses := responses, replies := w.replies + [r]);
    MergedRowOk(hash, w, k, text, after, r);
    forall i | 0 <= i < |rows| && i != k ensures RowOk(after, rows[i]) {
      UnmergedRowOk(hash, w, i, after, r);
    }
    forall i | 0 <= i < |w.replies| ensures ReceiptOk(hash, after, w.replies[i]) {
      assert ReceiptOk(hash, w, w.replies[i]);
    }
    SameIds(w.rows, rows);
  }

  /** The first receipt of a chat carries the digest of the original; without one the prompt is the original. */
  lemma FirstReceipt(hash: Digest, w: World, i: nat)
    requires Conserved(hash, w) && i < |w.rows|
    ensures w.rows[i].sendId in w.originals
    ensures var k := FirstMerged(w.replies, w.rows[i].sendId);
            if k < |w.replies| then w.replies[k].messageId == hash(w.originals[w.rows[i].sendId])
            else w.rows[i].message == w.originals[w.rows[i].sendId]
  {
    var send := w.rows[i].sendId;
    assert RowOk(w, w.rows[i]);
    var k := FirstMerged(w.replies, send);
    if k < |w.replies| {
      assert ReceiptOk(hash, w, w.replies[k]);
    } else {
      NoReceiptsNoTail(w.replies, |w.replies|, send);
    }
  }

  lemma InitialHashIsOriginal(hash: Digest, w: World, k: nat)
    requires NeverEmpty(hash)
    requires Conserved(hash, w) && k < |w.rows|
    ensures w.rows[k].sendId in w.originals
    ensures InitialHash(hash, w.replies, w.rows[k].sendId, w.rows[k].message) == hash(w.originals[w.rows[k].sendId])
  {
    FirstReceipt(hash, w, k);
  }

  lemma EditTouchesOneRow(rows: seq<Q.Delivery>, at: Time, k: nat, message: string)
    requires Q.Valid(rows) && k < |rows| && Q.Untouched(rows[k])
    ensures var after := Q.Apply(rows, at, Q.EditPrompt(rows[k].sendId, message));
            |after| == |rows| && after[k] == rows[k].(message := message, updatedAt := at) &&
            forall i :: 0 <= i < |rows| && i != k ==> after[i] == rows[i]
  {
  }

  lemma RetellSets(env: Env, responses: R.Table, send: string, text: string, at: Time)
    requires send in responses && responses[send].status.Queued?
    ensures var after := R.Apply(env, responses, R.One(send, R.Retell(text)), at);
            after.Keys == responses.Keys && after[send].userText == text &&
            forall id :: id in responses && id != send ==> after[id] == responses[id]
  {
  }

  lemma MergeKeepsInv(env: Env, hash: Digest, w: World, k: nat, replyId: string, text: string)
    requires NeverEmpty(hash) && Inv(hash, w) && k < |w.rows| && Q.Untouched(w.rows[k])
    requires w.rows[k].sendId in w.responses && w.responses[w.rows[k].sendId].status.Queued?
    requires |Combined(w.rows[k].message, text)| <= P.MAX_FOLLOWUP
    ensures Inv(hash, MergeInto(env, hash, w, k, replyId, text))
  {
    var send := w.rows[k].sendId;
    var combined := Combined(w.rows[k].message, text);
    assert RowOk(w, w.rows[k]);
    InitialHashIsOriginal(hash, w, k);
    Q.ApplyKeepsRows(w.rows, w.now, Q.EditPrompt(send, combined));
    EditTouchesOneRow(w.rows, w.now, k, combined);
    RetellSets(env, w.responses, send, combined, w.now);
    MergeFrame(hash, w, k, text, Q.Apply(w.rows, w.now, Q.EditPrompt(send, combined)),
               R.Apply(env, w.responses, R.One(send, R.Retell(combined)), w.now),
               Receipt(send, replyId, text, InitialHash(hash, w.replies, send, w.rows[k].message), w.now));
  }

  lemma FollowupKeepsInv(env: Env, hash: Digest, w: World, send: string, replyId: string, text: string, attached: bool)
    requires NeverEmpty(hash)
    requires Inv(hash, w)
    ensures Inv(hash, Followup(env, hash, w, send, replyId, text, attached))
  {
    if P.FollowupAllowed(w.replies, w.responses, send, replyId, text) {
      if attached && Mergeable(w, send, text) {
        MergeKeepsInv(env, hash, w, FindUntouched(w.rows, send), replyId, text);
      } else {
        ReplyKeepsInv(env, hash, w, P.Followup(send, replyId, text));
      }
    }
  }

  lemma TimeKeepsInv(hash: Digest, w: World, seconds: Time)
    requires Inv(hash, w)
    ensures Inv(hash, Advanced(w, seconds))
  {
    var after := Advanced(w, seconds);
    forall i | 0 <= i < |w.rows| ensures RowOk(after, w.rows[i]) { assert RowOk(w, w.rows[i]); }
    forall i | 0 <= i < |w.replies| ensures ReceiptOk(hash, after, w.replies[i]) {
      assert ReceiptOk(hash, w, w.replies[i]);
    }
  }

  lemma StepKeepsInv(env: Env, hash: Digest, w: World, e: Event)
    requires NeverEmpty(hash)
    requires Inv(hash, w)
    ensures Inv(hash, Step(env, hash, w, e))
  {
    match e
    case Advance(s) => TimeKeepsInv(hash, w, s);
    case Enqueue(r) => EnqueueKeepsInv(hash, w, r);
    case TellQueued(id, jobName) => ToldByQueueKeepsInv(env, hash, w, id, jobName);
    case TellDispatched(id, text, jobName) => ToldBySenderKeepsInv(env, hash, w, id, text, jobName);
    case Queue(op) => QueueKeepsInv(hash, w, op);
    case Respond(op) => RespondKeepsInv(env, hash, w, op);
    case Reply(op) => ReplyKeepsInv(env, hash, w, op);
    case FollowUp(send, replyId, text, attached) => FollowupKeepsInv(env, hash, w, send, replyId, text, attached);
  }

  lemma {:induction false} RunKeepsInv(env: Env, hash: Digest, w: World, events: seq<Event>)
    requires NeverEmpty(hash)
    requires Inv(hash, w)
    ensures Inv(hash, Run(env, hash, w, events))
    decreases |events|
  {
    if events != [] {
      StepKeepsInv(env, hash, w, events[0]);
      RunKeepsInv(env, hash, Step(env, hash, w, events[0]), events[1..]);
    }
  }

  // ---------------------------------------------------------------- main results

  ghost predicate Reachable(env: Env, hash: Digest, w: World) {
    exists now, events :: w == Run(env, hash, Start(now), events)
  }

  lemma ReachableKeepsInv(env: Env, hash: Digest, w: World)
    requires NeverEmpty(hash)
    requires Reachable(env, hash, w)
    ensures Inv(hash, w)
  {
    var now, events :| w == Run(env, hash, Start(now), events);
    RunKeepsInv(env, hash, Start(now), events);
  }

  /** In every reachable state a delivery's prompt is the one it was enqueued with followed by every merged
      follow-up once, in order, and the response the queue created for it shows the same prompt. */
  lemma PromptIsConserved(env: Env, hash: Digest, w: World, i: nat)
    requires NeverEmpty(hash)
    requires Reachable(env, hash, w) && i < |w.rows|
    ensures w.rows[i].sendId in w.originals
    ensures w.rows[i].message == w.originals[w.rows[i].sendId] + Merges(w.replies, w.rows[i].sendId)
    ensures w.rows[i].sendId in w.told ==>
              w.rows[i].sendId in w.responses &&
              w.responses[w.rows[i].sendId].userText == Take(w.rows[i].message, MAX_CHARS)
  {
    ReachableKeepsInv(env, hash, w);
    assert RowOk(w, w.rows[i]);
  }

  /** In every reachable state every merged receipt, the first and all later ones, carries the digest of the prompt
      its delivery was enqueued with. */
  lemma ReceiptsCarryOriginal(env: Env, hash: Digest, w: World, k: nat)
    requires NeverEmpty(hash)
    requires Reachable(env, hash, w) && k < |w.replies| && w.replies[k].status.Merged?
    ensures w.replies[k].sendId in w.originals && w.replies[k].messageId == hash(w.originals[w.replies[k].sendId])
  {
    ReachableKeepsInv(env, hash, w);
    assert ReceiptOk(hash, w, w.replies[k]);
  }

  ghost predicate Frozen(rows: seq<Q.Delivery>, after: seq<Q.Delivery>, i: nat)
    requires i < |rows|
  {
    i < |after| && !Q.Untouched(after[i]) && after[i].sendId == rows[i].sendId && after[i].message == rows[i].message
  }

  lemma FollowupKeepsTouched(env: Env, hash: Digest, w: World, send: string, replyId: string, text: string,
                             attached: bool, i: nat)
    requires Q.Valid(w.rows) && i < |w.rows| && !Q.Untouched(w.rows[i])
    ensures Frozen(w.rows, Followup(env, hash, w, send, replyId, text, attached).rows, i)
  {
    if attached && Mergeable(w, send, text) {
      var k := FindUntouched(w.rows, send);
      EditTouchesOneRow(w.rows, w.now, k, Combined(w.rows[k].message, text));
    }
  }

  lemma QueueKeepsTouched(w: World, op: Q.Op, i: nat)
    requires Q.Valid(w.rows) && i < |w.rows| && !Q.Untouched(w.rows[i])
    ensures Frozen(w.rows, QueueWritten(w, op).rows, i)
  {
    if !op.EditPrompt? && !op.Enqueue? {
      UntouchedIsNotRegained(w.rows, w.now, op, i);
    }
  }

  lemma StepKeepsTouched(env: Env, hash: Digest, w: World, e: Event, i: nat)
    requires Q.Valid(w.rows) && i < |w.rows| && !Q.Untouched(w.rows[i])
    ensures Frozen(w.rows, Step(env, hash, w, e).rows, i)
  {
    match e
    case Queue(op) => QueueKeepsTouched(w, op, i);
    case FollowUp(send, replyId, text, attached) =>
      FollowupKeepsTouched(env, hash, w, send, replyId, text, attached, i);
    case _ =>
  }

  /** A claim freezes the prompt: once a delivery has been touched, no later step changes it, so no later
      follow-up is merged into it. */
  lemma {:induction false} ClaimFreezesPrompt(env: Env, hash: Digest, w: World, events: seq<Event>, i: nat)
    requires NeverEmpty(hash)
    requires Inv(hash, w) && i < |w.rows| && !Q.Untouched(w.rows[i])
    ensures Frozen(w.rows, Run(env, hash, w, events).rows, i)
    decreases |events|
  {
    if events != [] {
      StepKeepsInv(env, hash, w, events[0]);
      StepKeepsTouched(env, hash, w, events[0], i);
      ClaimFreezesPrompt(env, hash, Step(env, hash, w, events[0]), events[1..], i);
    }
  }

  /** How a retried fresh-chat request is recognised from the saved row and the first merged receipt. */
  predicate Recognised(hash: Digest, w: World, d: Q.Delivery, prompt: string) {
    d.message == prompt ||
    (var i := FirstMerged(w.replies, d.sendId); i < |w.replies| && w.replies[i].messageId == hash(prompt))
  }

  lemma DigestDecides(hash: Digest, a: string, b: string)
    requires Injective(hash)
    ensures hash(a) == hash(b) <==> a == b
  {
  }

  lemma RecognisedIff(hash: Digest, w: World, i: nat, prompt: string)
    requires Inv(hash, w) && Injective(hash) && i < |w.rows|
    ensures w.rows[i].sendId in w.originals
    ensures Recognised(hash, w, w.rows[i], prompt) <==>
              prompt == w.originals[w.rows[i].sendId] || prompt == w.rows[i].message
  {
    FirstReceipt(hash, w, i);
    DigestDecides(hash, w.originals[w.rows[i].sendId], prompt);
  }

  /** A retry is acknowledged exactly for the original prompt or the current combined one. */
  lemma RetryRecognisedIff(env: Env, hash: Digest, w: World, i: nat, prompt: string)
    requires NeverEmpty(hash)
    requires Reachable(env, hash, w) && Injective(hash) && i < |w.rows|
    ensures w.rows[i].sendId in w.originals
    ensures Recognised(hash, w, w.rows[i], prompt) <==>
              prompt == w.originals[w.rows[i].sendId] || prompt == w.rows[i].message
  {
    ReachableKeepsInv(env, hash, w);
    RecognisedIff(hash, w, i, prompt);
  }

  // ---------------------------------------------------------------- the store

  datatype Outcome = Saved(row: P.Reply) | Conflict

  /** An earlier request with the same idempotency key and the same content. */
  predicate SameFollowup(r: P.Reply, send: string, text: string) {
    r.sendId == send && r.userText == text && r.queuedByUser
  }

  class ChatStore {
    const env: Env
    const hash: Digest
    var rows: seq<Q.Delivery>
    var responses: R.Table
    var replies: seq<P.Reply>

    constructor (env: Env, hash: Digest)
      ensures this.env == env && this.hash == hash && rows == [] && responses == map[] && replies == []
    {
      this.env, this.hash := env, hash;
      rows, responses, replies := [], map[], [];
    }

    ghost function State(at: Time): World
      reads this
    {
      World(at, rows, responses, replies, map[], {})
    }

    method FirstReceiptIndex(send: string) returns (i: nat)
      ensures i == FirstMerged(replies, send)
    {
      i := 0;
      while i < |replies| && !(replies[i].sendId == send && replies[i].status.Merged?)
        invariant i <= |replies|
        invariant FirstMerged(replies, send) == FirstMerged(replies, send, i)
      {
        i := i + 1;
      }
    }

    method UntouchedIndex(send: string) returns (i: nat)
      ensures i == FindUntouched(rows, send)
    {
      i := 0;
      while i < |rows| && !(rows[i].sendId == send && Q.Untouched(rows[i]))
        invariant i <= |rows|
        invariant FindUntouched(rows, send) == FindUntouched(rows, send, i)
      {
        i := i + 1;
      }
    }

    /** A merge into row k and its receipt, all in one transaction. */
    method Merge(k: nat, replyId: string, text: string, at: Time) returns (row: P.Reply)
      requires k < |rows|
      modifies this
      ensures State(at) == MergeInto(env, hash, old(State(at)), k, replyId, text)
      ensures row == replies[|old(replies)|] && |replies| == |old(replies)| + 1
    {
      var send, message := rows[k].sendId, rows[k].message;
      var first := FirstReceiptIndex(send);
      var digest :=
        if first < |replies| && replies[first].messageId != "" then replies[first].messageId else hash(message);
      var combined := Combined(message, text);
      row := Receipt(send, replyId, text, digest, at);
      rows := Update(rows, d => Q.EditRow(d, send, combined, at));
      responses := R.UpdateAt(env, responses, send, R.Retell(combined), at);
      replies := replies + [row];
    }

    /** Merge into an unclaimed first delivery, or queue an ordered reply; a repeated request is acknowledged
        once and a reused key with other content is refused. */
    method QueueFollowup(send: string, replyId: string, text: string, attached: bool, at: Time)
      returns (outcome: Outcome)
      modifies this
      ensures State(at) == Followup(env, hash, old(State(at)), send, replyId, text, attached)
      ensures outcome.Saved? <==>
                P.FollowupAllowed(old(replies), old(responses), send, replyId, text) ||
                (P.FollowupId(replyId) && !P.Blank(text) && |text| <= P.MAX_FOLLOWUP &&
                 P.Find(old(replies), replyId) < |old(replies)| &&
                 SameFollowup(old(replies)[P.Find(old(replies), replyId)], send, text))
      ensures outcome.Saved? ==>
                outcome.row in replies && outcome.row.replyId == replyId && SameFollowup(outcome.row, send, text)
      ensures outcome.Conflict? ==> State(at) == old(State(at))
    {
      if !P.FollowupId(replyId) || P.Blank(text) || |text| > P.MAX_FOLLOWUP {
        return Conflict;
      }
      var existing := P.Find(replies, replyId);
      if existing < |replies| {
        return if SameFollowup(replies[existing], send, text) then Outcome.Saved(replies[existing]) else Conflict;
      }
      if send !in responses || P.CountOutstanding(replies, send) >= P.MAX_OUTSTANDING {
        return Conflict;
      }
      if attached && responses[send].status.Queued? {
        var k := UntouchedIndex(send);
        var untold := forall i :: 0 <= i < |replies| && replies[i].sendId == send ==> replies[i].status.Merged?;
        if k < |rows| && untold && |Combined(rows[k].message, text)| <= P.MAX_FOLLOWUP {
          var row := Merge(k, replyId, text, at);
          return Outcome.Saved(row);
        }
      }
      var row := P.NewReply(replyId, send, "", "", text, "", P.Queued, true, at);
      replies := replies + [row];
      return Outcome.Saved(row);
    }

    /** The answer to a repeated fresh-chat request whose row already exists. */
    method AcknowledgeRetry(k: nat, prompt: string, images: seq<string>, clientId: string) returns (ok: bool)
      requires k < |rows|
      ensures ok <==>
                Recognised(hash, State(0.0), rows[k], prompt) && rows[k].images == images &&
                rows[k].clientId == clientId
    {
      var matches := rows[k].message == prompt;
      if !matches {
        var first := FirstReceiptIndex(rows[k].sendId);
        matches := first < |replies| && replies[first].messageId == hash(prompt);
      }
      ok := matches && rows[k].images == images && rows[k].clientId == clientId;
    }
  }
}
