/**
 * The deduplicator: the `seen` set of node ids and the `duplicates`
 * counter, module-level state that lives for the whole run and that
 * `already_seen` updates. Both programs have the same `already_seen`.
 */
module Dedup {
  import opened Wrappers
  import opened Json

  /** A snapshot of the deduplicator's state. */
  datatype Ctx = Ctx(seen: set<Json>, duplicates: nat)

  /** The state after an `already_seen` call, and what the call returned or raised. */
  datatype Claimed = Claimed(ctx: Ctx, result: Result<bool, Exception>)

  /**
   * `already_seen(node_id)`: an unhashable id raises TypeError and changes
   * nothing; a repeated id returns true and counts one more duplicate; a new
   * id returns false and is inserted. Every call that returns adds exactly
   * one to `|seen| + duplicates`.
   */
  function Claim(c: Ctx, nodeId: Json): (r: Claimed)
    ensures HashKey(nodeId).None? <==> r.result.Failure?
    ensures r.result.Failure? ==> r == Claimed(c, Failure(TypeError))
    ensures r.result == Success(true) ==>
              && HashKey(nodeId).value in c.seen
              && r.ctx == Ctx(c.seen, c.duplicates + 1)
    ensures r.result == Success(false) ==>
              && HashKey(nodeId).value !in c.seen
              && r.ctx == Ctx(c.seen + {HashKey(nodeId).value}, c.duplicates)
    ensures r.result.Success? ==> |r.ctx.seen| + r.ctx.duplicates == |c.seen| + c.duplicates + 1
    ensures c.seen <= r.ctx.seen && c.duplicates <= r.ctx.duplicates
  {
    match HashKey(nodeId)
    case None => Claimed(c, Failure(TypeError))
    case Some(k) =>
      if k in c.seen then Claimed(Ctx(c.seen, c.duplicates + 1), Success(true))
      else Claimed(Ctx(c.seen + {k}, c.duplicates), Success(false))
  }

  /** Differences of a growing chain of sets add up. */
  lemma DiffChain<T>(a: set<T>, b: set<T>, c: set<T>)
    requires a <= b <= c
    ensures |c - a| == |b - a| + |c - b|
  {
    assert c - a == (b - a) + (c - b);
    assert (b - a) !! (c - b);
  }

  /** The `seen` set and `duplicates` counter. */
  class SeenSet {
    var seen: set<Json>
    var duplicates: nat

    function State(): Ctx
      reads this
    {
      Ctx(seen, duplicates)
    }

    /** A run starts with nothing seen and no duplicates. */
    constructor ()
      ensures seen == {} && duplicates == 0
    {
      seen := {};
      duplicates := 0;
    }

    /** `already_seen`. */
    method AlreadySeen(nodeId: Json) returns (r: Result<bool, Exception>)
      modifies this
      ensures Claimed(State(), r) == Claim(old(State()), nodeId)
    {
      var k := HashKey(nodeId);
      if k.None? {
        return Failure(TypeError);
      }
      if k.value in seen {
        duplicates := duplicates + 1;
        return Success(true);
      }
      seen := seen + {k.value};
      return Success(false);
    }
  }
}
