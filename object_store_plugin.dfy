/**
 * The object store a plugin process dispenses: a stub standing for plugin
 * code that is not part of this model. It records every call it receives,
 * and answers as its `answer` oracle says.
 */
module ObjectStorePlugin {
  import opened Wrappers
  import opened Framework

  class ObjectStoreClient {
    /** Every call this plugin received, oldest first. */
    var calls: seq<Call>
    /** How the plugin answers a call, given the calls it received before. */
    const answer: (seq<Call>, Call) -> Reply

    constructor (answer: (seq<Call>, Call) -> Reply)
      ensures calls == [] && this.answer == answer
    {
      calls := [];
      this.answer := answer;
    }

    /** The answer the next call `c` would get. */
    function Answer(c: Call): Reply
      reads this
    {
      answer(calls, c)
    }

    /** Any method of the plugin interface; `c` names the method and holds its arguments. */
    method Receive(c: Call) returns (r: Reply)
      modifies this
      ensures calls == old(calls) + [c]
      ensures r == old(Answer(c))
    {
      r := answer(calls, c);
      calls := calls + [c];
    }
  }

  /** Between the old and the current state, `to` (if any) received exactly `c`,
      and no other stub in `stubs` received anything. */
  twostate predicate Delivered(stubs: set<ObjectStoreClient>, to: Option<ObjectStoreClient>, c: Call)
    reads stubs
  {
    forall d :: d in stubs ==> d.calls == old(d.calls) + (if to == Some(d) then [c] else [])
  }
}
