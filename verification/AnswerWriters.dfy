/** How each writer turns a capture into the answer columns of a row. */
module AnswerWriters {
  import opened Tables
  import opened DisplayBlocks
  import opened Captures

  // ---------------------------------------------------------------- the four writers

  function Longer(a: string, b: string): string {
    if |b| > |a| then b else a
  }

  function OrElse(a: string, b: string): string {
    if a != "" then a else b
  }

  /** `ResponseStore.write`, once its guards hold. */
  function WriteText(env: Env, row: Saved, c: Capture): Saved {
    var blocks := env.mergeBlocks(row.blocks, c.displayBlocks);
    var sent := Take(c.text, MAX_CHARS);
    var text := if c.source.Dom? then Take(OrElse(env.display(blocks), sent), MAX_CHARS) else sent;
    var prior := env.visible(row);
    if text == "" then Saved(row.text, blocks)
    else Saved(if |text| < |prior| then prior else text, blocks)
  }

  /** `ResponseStore.recover_historical_response`, None when it refuses a truncated snapshot. */
  function RecoverText(env: Env, row: Saved, c: Capture): Option<Saved> {
    var blocks := env.mergeBlocks(row.blocks, c.displayBlocks);
    var text := Take(OrElse(env.display(blocks), c.text), MAX_CHARS);
    var prior := env.visible(row);
    if |text| < |prior| then
      if c.toolCalls == [] && !c.verifiedGenerating then None else Some(Saved(prior, blocks))
    else Some(Saved(text, blocks))
  }

  /** `ManualReplyStore.observe`, None when the answer is empty or shorter than the saved one. */
  function ObserveText(env: Env, row: Saved, c: Capture): Option<Saved> {
    var blocks := env.mergeBlocks(row.blocks, c.displayBlocks);
    var shown := env.display(blocks);
    var text := if c.source.Dom? then OrElse(shown, c.text) else Longer(c.text, shown);
    if text == "" || |text| < |env.visible(row)| then None
    else Some(Saved(Take(text, MAX_CHARS), blocks))
  }

  function ObserveToolsText(env: Env, row: Saved, c: Capture): Saved {
    Saved(row.text, env.mergeBlocks(row.blocks, c.displayBlocks))
  }

  /** `ManualReplyStore.recover_historical_reply`, None when it refuses a truncated snapshot. */
  function RecoverReplyText(env: Env, row: Saved, c: Capture): Option<Saved> {
    var blocks := env.mergeBlocks(row.blocks, c.displayBlocks);
    var text := Take(c.text, MAX_CHARS);
    if |text| < |env.visible(row)| then
      if c.toolCalls == [] && !c.verifiedGenerating then None else Some(Saved(row.text, blocks))
    else Some(Saved(text, blocks))
  }

  datatype Writer = Write | RecoverResponse | Observe | ObserveTools | RecoverReply

  function Apply(env: Env, row: Saved, w: Writer, c: Capture): Saved {
    match w
    case Write => WriteText(env, row, c)
    case RecoverResponse => var r := RecoverText(env, row, c); if r.Some? then r.value else row
    case Observe => var r := ObserveText(env, row, c); if r.Some? then r.value else row
    case ObserveTools => ObserveToolsText(env, row, c)
    case RecoverReply => var r := RecoverReplyText(env, row, c); if r.Some? then r.value else row
  }
}
