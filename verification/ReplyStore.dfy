/** The manual reply store: every method is one transaction over the reply table. */
module ReplyStore {
  import opened Tables
  import opened Captures
  import opened Replies
  import opened ReplyRuns
  import R = Responses
  import AW = AnswerWriters

  datatype Refusal = KeyReused | NotTerminal | Incomplete | Unresolved | Inconsistent | Stale

  datatype Prepared = Saved(row: Reply) | Refused(reason: Refusal)

  lemma {:induction false} BlockedWalkStays(replies: seq<Reply>, n: nat, m: nat, send: string, conversation: string,
                                            first: string)
    requires n <= m <= |replies| && Walk(replies, n, send, conversation, first).None?
    ensures Walk(replies, m, send, conversation, first).None?
    decreases m
  {
    if n < m {
      BlockedWalkStays(replies, n, m - 1, send, conversation, first);
    }
  }

  predicate Reused(replies: seq<Reply>, send: string, intent: Intent) {
    var k := Find(replies, intent.replyId);
    k < |replies| && !SameIntent(replies[k], send, intent)
  }

  predicate Unused(replies: seq<Reply>, intent: Intent) { Find(replies, intent.replyId) == |replies| }

  /** A turn of the chat that is settled and attached to its predecessor. */
  predicate Continues(replies: seq<Reply>, responses: R.Table, send: string, i: nat)
    requires send in responses
  {
    i < |replies| && Settled(replies[i]) && replies[i].conversationId == responses[send].conversationId &&
    replies[i].parentId == PreviousMessage(replies, i, send, responses[send].messageId)
  }

  /** Row i is the first turn of the chat that is unsettled or attached elsewhere. */
  ghost predicate FirstBlock(replies: seq<Reply>, responses: R.Table, send: string, i: nat) {
    send in responses && i < |replies| && replies[i].sendId == send && Turn(replies[i]) &&
    !Continues(replies, responses, send, i) &&
    forall k :: 0 <= k < i && replies[k].sendId == send && Turn(replies[k]) ==> Continues(replies, responses, send, k)
  }

  /** The walk over all rows succeeds exactly when no turn blocks it. */
  lemma WalkMeetsBlock(replies: seq<Reply>, responses: R.Table, send: string, blocked: Option<nat>)
    requires send in responses
    requires var response := responses[send];
             Walk(replies, |replies|, send, response.conversationId, response.messageId).Some? <==> blocked.None?
    requires blocked.Some? ==> FirstBlock(replies, responses, send, blocked.value)
    ensures forall i: nat :: FirstBlock(replies, responses, send, i) <==> blocked == Some(i)
  {
    WalkIsExact(replies, |replies|, send, responses[send].conversationId, responses[send].messageId);
    forall i: nat | FirstBlock(replies, responses, send, i) ensures blocked == Some(i) {
      assert !Continues(replies, responses, send, i);
    }
  }

  lemma FindIsFirst(replies: seq<Reply>, replyId: string, k: nat)
    requires k < |replies| && replies[k].replyId == replyId && forall i :: 0 <= i < k ==> replies[i].replyId != replyId
    ensures Find(replies, replyId) == k
  {
  }

  lemma FindsAppended(replies: seq<Reply>, r: Reply)
    requires Find(replies, r.replyId) == |replies|
    ensures Find(replies + [r], r.replyId) == |replies|
  {
    FindIsFirst(replies + [r], r.replyId, |replies|);
  }

  lemma FindsUpdated(replies: seq<Reply>, k: nat, r: Reply)
    requires k < |replies| && Find(replies, r.replyId) == k && r.replyId == replies[k].replyId
    ensures Find(replies[k := r], r.replyId) == k
  {
    FindIsFirst(replies[k := r], r.replyId, k);
  }

  function OrKeepParent(responseParent: Option<string>, parent: string): string {
    if responseParent.Some? then responseParent.value else parent
  }

  class ManualReplyStore {
    const env: Env
    var replies: seq<Reply>
    var responses: R.Table

    constructor (env: Env, responses: R.Table)
      ensures this.env == env && replies == [] && this.responses == responses
    {
      this.env, replies, this.responses := env, [], responses;
    }

    method Locate(replyId: string) returns (k: nat)
      ensures k == Find(replies, replyId)
    {
      k := 0;
      while k < |replies| && replies[k].replyId != replyId
        invariant k <= |replies|
        invariant forall i :: 0 <= i < k ==> replies[i].replyId != replyId
      {
        k := k + 1;
      }
    }

    /** The lineage walk over the first n rows: stops at the first turn that is unsettled or attached elsewhere. */
    method WalkBranch(n: nat, send: string, conversation: string, first: string)
      returns (parent: string, blocked: Option<nat>)
      requires n <= |replies|
      ensures Walk(replies, n, send, conversation, first) == if blocked.None? then Some(parent) else None
      ensures blocked.None? ==> parent == PreviousMessage(replies, n, send, first)
      ensures blocked.Some? ==>
                blocked.value < n && replies[blocked.value].sendId == send && Turn(replies[blocked.value]) &&
                !(Settled(replies[blocked.value]) && Attached(replies, blocked.value, conversation, first)) &&
                forall i :: 0 <= i < blocked.value && replies[i].sendId == send && Turn(replies[i]) ==>
                  Settled(replies[i]) && Attached(replies, i, conversation, first)
    {
      parent := first;
      var i := 0;
      while i < n
        invariant i <= n
        invariant Walk(replies, i, send, conversation, first) == Some(parent)
      {
        var turn := replies[i];
        if turn.sendId == send && Turn(turn) {
          if !Settled(turn) || turn.conversationId != conversation || turn.parentId != parent {
            WalkIsExact(replies, i, send, conversation, first);
            BlockedWalkStays(replies, i + 1, n, send, conversation, first);
            return parent, Some(i);
          }
          parent := turn.messageId;
        }
        i := i + 1;
      }
      WalkIsExact(replies, n, send, conversation, first);
      blocked := None;
    }

    /** An intent is saved once, on the exact tip of a settled branch; the same intent gets its row back. */
    method Prepare(send: string, intent: Intent, at: Time) returns (outcome: Prepared)
      modifies this
      ensures responses == old(responses)
      ensures replies == Apply(env, old(replies), responses, Op.Prepare(send, intent), at)
      ensures outcome.Saved? <==>
                Preparable(old(replies), responses, send, intent) ||
                (Find(old(replies), intent.replyId) < |old(replies)| &&
                 SameIntent(old(replies)[Find(old(replies), intent.replyId)], send, intent))
      ensures outcome.Saved? ==>
                Find(replies, intent.replyId) < |replies| && replies[Find(replies, intent.replyId)] == outcome.row &&
                SameIntent(outcome.row, send, intent)
      ensures outcome.Refused? ==> replies == old(replies)
      ensures outcome == Refused(KeyReused) <==> Reused(old(replies), send, intent)
      ensures outcome == Refused(NotTerminal) <==>
                Unused(old(replies), intent) && (send !in responses || !R.Settled(responses[send].status))
      ensures outcome == Refused(Incomplete) <==>
                Unused(old(replies), intent) && send in responses && R.Settled(responses[send].status) &&
                (responses[send].conversationId == "" || responses[send].messageId == "")
      ensures outcome == Refused(Unresolved) <==>
                Unused(old(replies), intent) && Anchored(responses, send) &&
                exists i: nat :: FirstBlock(old(replies), responses, send, i) && !Settled(old(replies)[i])
      ensures outcome == Refused(Inconsistent) <==>
                Unused(old(replies), intent) && Anchored(responses, send) &&
                exists i: nat :: FirstBlock(old(replies), responses, send, i) && Settled(old(replies)[i])
      ensures outcome == Refused(Stale) <==>
                Unused(old(replies), intent) && Anchored(responses, send) &&
                (forall i: nat :: !FirstBlock(old(replies), responses, send, i)) &&
                (intent.conversationId != responses[send].conversationId ||
                 intent.parentId != PreviousMessage(old(replies), |old(replies)|, send, responses[send].messageId))
    {
      var k := Locate(intent.replyId);
      if k < |replies| {
        return if SameIntent(replies[k], send, intent) then Prepared.Saved(replies[k]) else Refused(KeyReused);
      }
      if send !in responses || !R.Settled(responses[send].status) {
        return Refused(NotTerminal);
      }
      var conversation, first := responses[send].conversationId, responses[send].messageId;
      if conversation == "" || first == "" {
        return Refused(Incomplete);
      }
      var parent, blocked := WalkBranch(|replies|, send, conversation, first);
      assert blocked.Some? ==> FirstBlock(replies, responses, send, blocked.value);
      WalkMeetsBlock(replies, responses, send, blocked);
      if blocked.Some? {
        return Refused(if Settled(replies[blocked.value]) then Inconsistent else Unresolved);
      }
      if intent.conversationId != conversation || intent.parentId != parent {
        return Refused(Stale);
      }
      var row := NewReply(intent.replyId, send, conversation, parent, intent.text, "", Status.Prepared, false, at);
      replies := replies + [row];
      FindsAppended(old(replies), row);
      return Prepared.Saved(row);
    }

    /** Rearm a failed preflight and let the worker see the row. */
    method AuthorizeIntent(k: nat, at: Time)
      requires k < |replies| && Find(replies, replies[k].replyId) == k
      modifies this
      ensures responses == old(responses)
      ensures replies == UpdateOne(env, UpdateOne(env, old(replies), k, Rearm, at), k, Authorize, at)
      ensures k < |replies| && Find(replies, old(replies)[k].replyId) == k &&
              (replies[k].status.Prepared? ==> replies[k].queuedByUser)
      ensures k < |replies| && forall send, intent :: SameIntent(old(replies)[k], send, intent) ==>
                SameIntent(replies[k], send, intent)
    {
      ghost var before := replies;
      replies := replies[k := RearmRow(replies[k], at)];
      replies := replies[k := AuthorizeRow(replies[k])];
      FindsUpdated(before, k, replies[k]);
    }

    /** Preparing an intent does not authorize its dispatch; this does, for the same immutable intent only. */
    method QueueExplicitSend(send: string, intent: Intent, at: Time) returns (ok: bool)
      modifies this
      ensures responses == old(responses)
      ensures replies == Apply(env, old(replies), responses, QueueExplicit(send, intent), at)
      ensures ok ==>
                var k := Find(replies, intent.replyId);
                k < |replies| && SameIntent(replies[k], send, intent) &&
                (replies[k].status.Prepared? ==> replies[k].queuedByUser)
      ensures !ok ==> replies == old(replies)
    {
      var outcome := Prepare(send, intent, at);
      var k := Locate(intent.replyId);
      ok := outcome.Saved?;
      if k < |replies| && SameIntent(replies[k], send, intent) {
        AuthorizeIntent(k, at);
      }
    }

    /** The authoritative dispatch decision. */
    method ReadyQueuedIntent(exclude: set<string>) returns (k: nat)
      ensures k == NextReady(replies, responses, exclude, 0)
      ensures k < |replies| ==> Ready(replies, responses, exclude, k)
    {
      k := 0;
      while k < |replies|
        invariant k <= |replies|
        invariant NextReady(replies, responses, exclude, 0) == NextReady(replies, responses, exclude, k)
      {
        var r := replies[k];
        if r.queuedByUser && (r.status.Queued? || r.status.Prepared?) && r.replyId !in exclude &&
            Anchored(responses, r.sendId) {
          var original := responses[r.sendId];
          var parent, blocked := WalkBranch(k, r.sendId, original.conversationId, original.messageId);
          if blocked.None? && (r.status.Queued? ||
                               (r.conversationId == original.conversationId && r.parentId == parent)) {
            return;
          }
        }
        k := k + 1;
      }
    }

    /** Bind one waiting turn to the tip of its chat and hand out its intent. */
    method NextQueuedIntent(exclude: set<string>, at: Time) returns (next: Option<Intent>)
      modifies this
      ensures responses == old(responses)
      ensures replies == Apply(env, old(replies), responses, BindNext(exclude), at)
      ensures next.Some? <==> exists i :: 0 <= i < |old(replies)| && Ready(old(replies), responses, exclude, i)
      ensures next.Some? ==>
                var k := NextReady(old(replies), responses, exclude, 0);
                k < |old(replies)| && k < |replies| && replies[k].status.Prepared? && replies[k].queuedByUser &&
                next.value == Intent(replies[k].replyId, replies[k].conversationId, replies[k].parentId,
                                     replies[k].userText) &&
                next.value.parentId == PreviousMessage(old(replies), k, replies[k].sendId,
                                                       responses[replies[k].sendId].messageId)
    {
      var k := ReadyQueuedIntent(exclude);
      if k == |replies| {
        return None;
      }
      BoundIsReady(replies, responses, exclude);
      var r := replies[k];
      var original := responses[r.sendId];
      var parent, blocked := WalkBranch(k, r.sendId, original.conversationId, original.messageId);
      replies := replies[k := BoundRow(r, original.conversationId, parent, at)];
      next := Some(Intent(r.replyId, original.conversationId, parent, r.userText));
    }

    /** A guarded update of one row; `ok` says whether its WHERE clause matched. */
    method UpdateRow(k: nat, op: RowOp, at: Time) returns (ok: bool)
      requires k <= |replies|
      modifies this
      ensures responses == old(responses)
      ensures replies == UpdateOne(env, old(replies), k, op, at)
      ensures ok <==> k < |replies| && replies[k] != old(replies)[k]
    {
      ok := false;
      if k < |replies| {
        var next := ApplyRow(env, replies[k], op, at);
        ok := next != replies[k];
        replies := replies[k := next];
      }
    }

    /** The single irreversible dispatch claim: only a prepared row, only for a named owner,
        only before its deadline. */
    method ClaimDispatch(replyId: string, owner: string, deadline: Time, at: Time) returns (ok: bool)
      modifies this
      ensures responses == old(responses)
      ensures replies == Apply(env, old(replies), responses, One(replyId, Claim(owner, deadline)), at)
      ensures ok <==> (owner != "" && deadline > at && Find(old(replies), replyId) < |old(replies)| &&
                       old(replies)[Find(old(replies), replyId)].status.Prepared?)
      ensures ok ==> Find(old(replies), replyId) < |replies| && replies[Find(old(replies), replyId)].status.Dispatching?
    {
      if owner == "" || deadline <= at {
        return false;
      }
      var k := Locate(replyId);
      ok := k < |replies| && replies[k].status.Prepared?;
      if ok {
        replies := replies[k := replies[k].(status := Dispatching, owner := owner, deadline := deadline,
                                            updatedAt := at)];
      }
    }

    method AcknowledgeSubmission(replyId: string, owner: string, conversation: string, parent: string, at: Time)
      returns (ok: bool)
      modifies this
      ensures responses == old(responses)
      ensures replies == Apply(env, old(replies), responses, One(replyId, Acknowledge(owner, conversation, parent)), at)
      ensures ok ==> Find(old(replies), replyId) < |replies| && replies[Find(old(replies), replyId)].status.Accepted?
      ensures !ok ==> replies == old(replies)
    {
      var k := Locate(replyId);
      ok := UpdateRow(k, Acknowledge(owner, conversation, parent), at);
    }

    /** A reply's own message can be neither its parent nor the parent of the response. */
    method Accept(replyId: string, owner: string, conversation: string, parent: string, messageId: string,
                  responseParent: Option<string>, at: Time) returns (ok: bool)
      modifies this
      ensures responses == old(responses)
      ensures replies == Apply(env, old(replies), responses,
                               One(replyId, AcceptMessage(owner, conversation, parent, messageId,
                                                          OrKeepParent(responseParent, parent))), at)
      ensures ok ==>
                Find(old(replies), replyId) < |replies| &&
                replies[Find(old(replies), replyId)].messageId == messageId != parent
      ensures !ok ==> replies == old(replies)
    {
      var expected := OrKeepParent(responseParent, parent);
      var k := Locate(replyId);
      ok := UpdateRow(k, AcceptMessage(owner, conversation, parent, messageId, expected), at);
    }

    /** A snapshot of another branch, an expired lease or a stale owner changes nothing. */
    method ObserveCapture(replyId: string, owner: string, capture: Capture, at: Time) returns (ok: bool)
      modifies this
      ensures responses == old(responses)
      ensures replies == Apply(env, old(replies), responses, One(replyId, Observe(owner, capture)), at)
      ensures ok <==> Find(old(replies), replyId) < |old(replies)| &&
                      Observable(old(replies)[Find(old(replies), replyId)], owner, capture, at) &&
                      AW.ObserveText(env, old(replies)[Find(old(replies), replyId)].saved, capture).Some?
    {
      var k := Locate(replyId);
      if k == |replies| || !Observable(replies[k], owner, capture, at) {
        return false;
      }
      ok := AW.ObserveText(env, replies[k].saved, capture).Some?;
      replies := replies[k := ObserveRow(env, replies[k], owner, capture, at)];
    }

    /** Ending an execution: an unconfirmed dispatch is quarantined, anything later is merely interrupted. */
    method FinishDispatch(replyId: string, owner: string, uncertain: bool, at: Time) returns (ok: bool)
      modifies this
      ensures responses == old(responses)
      ensures replies == Apply(env, old(replies), responses, One(replyId, Finish(owner, uncertain)), at)
      ensures ok ==> Find(old(replies), replyId) < |replies| &&
                     replies[Find(old(replies), replyId)].owner == "" &&
                     (replies[Find(old(replies), replyId)].status.OutcomeUnknown? <==>
                        uncertain && old(replies)[Find(old(replies), replyId)].status.Dispatching?)
      ensures !ok ==> replies == old(replies)
    {
      var k := Locate(replyId);
      ok := UpdateRow(k, Finish(owner, uncertain), at);
    }

    /** Expired and dead owners lose their rows: dispatches are quarantined, captures interrupted. */
    method RecoverOrphanReplies(dead: set<string>, at: Time)
      modifies this
      ensures responses == old(responses)
      ensures replies == Apply(env, old(replies), responses, RecoverOrphans(dead), at)
      ensures forall i :: 0 <= i < |replies| && InFlight(replies[i].status) ==>
                replies[i].deadline > at && replies[i].owner !in dead
    {
      replies := Update(replies, (r: Reply) => OrphanRow(r, dead, at));
    }

    /** Bind the missing message of the branch tip, proved on the page, and nothing else. */
    method RecoverReplyParent(send: string, replyId: string, conversation: string, previousParent: string,
                              userText: string, answer: string, messageId: string, at: Time) returns (ok: bool)
      modifies this
      ensures responses == old(responses)
      ensures replies == Apply(env, old(replies), responses,
                               RecoverTip(send, replyId, conversation, previousParent, userText, answer, messageId), at)
      ensures ok ==> var k := Find(old(replies), replyId);
                     LastUnqueued(old(replies), |old(replies)|, send) == Some(k) && k < |replies| &&
                     old(replies)[k].messageId == "" && replies[k].messageId == R.Lower(messageId)
      ensures !ok ==> replies == old(replies)
    {
      var k := Locate(replyId);
      var verified := VerifiedTip(replies, responses, send, k, conversation, previousParent, userText, answer,
                                  messageId);
      ok := UpdateRow(k, BindParent(messageId, verified), at);
    }
  }
}
