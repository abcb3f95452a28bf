/** One observation of a response, as every writer receives it. */
module Captures {
  import opened Tables
  import opened DisplayBlocks
  import opened ToolCalls

  datatype Source = Sse | Dom

  datatype CaptureStatus = Complete | Partial | TimedOut | ApprovalWait | Limited | Cut | Unknown

  datatype Capture = Capture(
    source: Source, status: CaptureStatus, text: string,
    conversationId: Option<string>, messageId: Option<string>, parentId: Option<string>,
    observerId: Option<string>, toolCalls: seq<Call>, verifiedGenerating: bool,
    displayBlocks: seq<Raw>, turnMessageIds: seq<string>)

  /** The two columns that hold an answer. */
  datatype Saved = Saved(text: string, blocks: Stored)

  /** How transcripts are shown and merged. The row lifecycles hold for any such functions; VisibleText
      supplies the ones in use. */
  datatype Env = Env(
    visible: Saved -> string, display: Stored -> string,
    mergeBlocks: (Stored, seq<Raw>) -> Stored, mergeTools: (StoredCalls, seq<Call>) -> StoredCalls)

  predicate Given(o: Option<string>) {
    o.Some? && o.value != ""
  }

  /** `capture.x or row.x` */
  function OrKeep(o: Option<string>, was: string): string {
    if Given(o) then o.value else was
  }
}
