/**
 * ModelUpdateLoop.ts: an ordered list of per-frame handlers, all called with the
 * same `common` value on every tick. A handler's own effect is outside the model;
 * a tick is observed as the sequence of calls it makes.
 */
module ModelUpdateLoop {

  /** An opaque handler `(common: Common) => void`, compared by identity. */
  type Handler = nat

  /** The `{ worldCamera }` record handed to every handler. */
  type Common = nat

  /** One invocation `update(common)`. */
  datatype Call = Call(handler: Handler, common: Common)

  /** The calls a tick makes over `updates`, given `common`. */
  function Calls(updates: seq<Handler>, common: Common): (r: seq<Call>)
    ensures |r| == |updates|
    ensures forall i :: 0 <= i < |updates| ==> r[i] == Call(updates[i], common)
  {
    seq(|updates|, i requires 0 <= i < |updates| => Call(updates[i], common))
  }

  class ModelUpdateLoop {
    /** Set once by the constructor and never reassigned. */
    const common: Common
    var updates: seq<Handler>

    constructor (common: Common)
      ensures this.common == common && updates == []
    {
      this.common := common;
      updates := [];
    }

    /** `add`: the handler goes last; the earlier ones keep their places. */
    method Add(handler: Handler)
      modifies this
      ensures updates == old(updates) + [handler]
      ensures updates[..|old(updates)|] == old(updates) && updates[|updates| - 1] == handler
    {
      updates := updates + [handler];
    }

    /**
     * `tick`: every registered handler is called exactly once, in registration
     * order, with `common`. Tick has no modifies clause: the list is left as it was.
     */
    method Tick() returns (calls: seq<Call>)
      ensures |calls| == |updates|
      ensures forall i :: 0 <= i < |updates| ==> calls[i].handler == updates[i] && calls[i].common == common
    {
      calls := [];
      var i := 0;
      while i < |updates|
        invariant 0 <= i <= |updates|
        invariant calls == Calls(updates[..i], common)
      {
        calls := calls + [Call(updates[i], common)];
        i := i + 1;
        assert updates[..i] == updates[..i - 1] + [updates[i - 1]];
      }
      assert updates[..i] == updates;
    }
  }

  /** Ticking after an `add` makes the old calls, then one call of the new handler. */
  lemma {:induction false} CallsAfterAdd(updates: seq<Handler>, handler: Handler, common: Common)
    ensures Calls(updates + [handler], common) == Calls(updates, common) + [Call(handler, common)]
  {
    var l, r := Calls(updates + [handler], common), Calls(updates, common) + [Call(handler, common)];
    assert |l| == |r|;
    forall i | 0 <= i < |l| ensures l[i] == r[i] {
      if i < |updates| {
        assert (updates + [handler])[i] == updates[i];
      }
    }
  }
}
