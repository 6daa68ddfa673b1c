/**
 * The thinking updater (the auxiliary reasoning / tool-status message) as the
 * dispatcher sees it: the calls it receives, in order. What it renders is not
 * part of this model.
 */
module ThinkingUpdaters {
  import opened Wrappers
  import opened JsValues

  datatype ThinkingCall =
    | ShowReasoning(text: string)
    | ToolStart(toolCallId: string, name: string, args: Option<Value>)
    | ToolEnd(toolCallId: string, isError: bool)
    | Collapse
    | Delete
    | Stop

  class ThinkingUpdater {
    var calls: seq<ThinkingCall>

    constructor ()
      ensures calls == []
    {
      calls := [];
    }

    /** Records one call: `update`, `toolStart`, `toolEnd`, `collapse`, `delete` or `stop`. */
    method Call(c: ThinkingCall)
      modifies this
      ensures calls == old(calls) + [c]
    {
      calls := calls + [c];
    }
  }
}
