/** Anthropic server-sent events as structured values; JSON text is left abstract. */
module SseEvents {
  import opened Prelude

  /** The content_block of a content_block_start. ServerToolBlock stands for the three
      start/stop-only server tool types, UnlistedBlock for a type string outside the contract. */
  datatype Block =
    | TextBlock(text: string)
    | ThinkingBlock(thinking: string)
    | ToolUseBlock(id: Option<string>, name: Option<string>, input: Option<string>)
    | RedactedThinkingBlock(data: string)
    | ServerToolBlock(body: string)
    | UnlistedBlock(typeName: string)

  datatype Delta =
    | TextDelta(text: string)
    | ThinkingDelta(thinking: string)
    | SignatureDelta(signature: string)
    | InputJsonDelta(partialJson: string)
    | UnlistedDelta(typeName: string)
    | UntypedDelta

  /** UntypedDelta is a delta object whose type is not a string. Malformed stands for a content_block_*
      event whose index is not an integer (None), for a start whose block is not an object with a string
      type, and for a delta that is not an object. */
  datatype Event =
    | MessageStart(id: string)
    | BlockStart(index: int, block: Block)
    | BlockDelta(index: int, delta: Delta)
    | BlockStop(index: int)
    | MessageDelta(stopReason: string, outputTokens: int)
    | MessageStop
    | ErrorEvent(message: string)
    | OtherEvent(name: string)
    | Malformed(name: string, at: Option<int>)

  /** Blocks of thinking: the two listed types, and any other type with the word in its name. */
  ghost predicate IsThinkingBlock(b: Block) {
    b.ThinkingBlock? || b.RedactedThinkingBlock? || (b.UnlistedBlock? && Contains(b.typeName, "thinking"))
  }

  ghost predicate IsThinkingText(d: Delta) {
    d.ThinkingDelta? || (d.UnlistedDelta? && Contains(d.typeName, "thinking"))
  }

  predicate HasMessageStart(es: seq<Event>) {
    exists i | 0 <= i < |es| :: es[i].MessageStart?
  }

  predicate HasError(es: seq<Event>) {
    exists i | 0 <= i < |es| :: es[i].ErrorEvent?
  }

  predicate HasBlockStart(es: seq<Event>) {
    exists i | 0 <= i < |es| :: es[i].BlockStart?
  }
}
