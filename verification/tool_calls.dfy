/**
 * Conversion of an assistant response's tool calls into the per-round list of
 * records. The framework's `as_dict` is not part of this model: a record is
 * the tool call's own fields, so the conversion is the identity on them.
 */
module ToolCalls {
  import opened Wrappers
  import opened Messages

  /** The calls the driver iterates over: none when the entry is missing or empty (falsy). */
  function ListedCalls(r: Response): seq<ToolCall> {
    match r.toolCalls
    case Some(calls) => calls
    case None => []
  }

  /**
   * Builds the round's tool-call records one by one, in the order the
   * response lists them, with no filtering and no deduplication.
   */
  method ExtractToolCalls(r: Response) returns (records: seq<ToolCall>)
    ensures r.toolCalls.None? ==> records == []
    ensures r.toolCalls.Some? ==> |records| == |r.toolCalls.value|
    ensures r.toolCalls.Some? ==> forall i :: 0 <= i < |records| ==> records[i] == r.toolCalls.value[i]
    ensures records == ListedCalls(r)
  {
    records := [];
    if r.toolCalls.Some? && |r.toolCalls.value| > 0 {
      var calls := r.toolCalls.value;
      var i := 0;
      while i < |calls|
        invariant 0 <= i <= |calls|
        invariant records == calls[..i]
      {
        records := records + [calls[i]];
        i := i + 1;
      }
      assert calls[..|calls|] == calls;
    }
  }
}
