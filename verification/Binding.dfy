/** The claim on a key resource as every backend reports it. */
module Binding {
  import opened Wrappers
  import ClusterId

  datatype BindingError =
    | Unclaimed
    | Corrupt
    | Unreadable
    | Mismatch
    | InvalidId
    | OperationFailed

  /** A claim counts only for the cluster that owns it. */
  function RequireClaimOwner(expected: string, actual: string): (e: Option<BindingError>)
    ensures e.None? <==> actual == expected
    ensures e.Some? ==> e.value == Mismatch
  {
    if actual == expected then None else Some(Mismatch)
  }

  /** The startup check: the durable claim must be exactly this cluster's. */
  function RequireClusterBinding(clusterId: string, binding: Result<string, BindingError>): (e: Option<BindingError>)
    ensures e.None? <==> ClusterId.Valid(clusterId) && binding == Ok(clusterId)
    ensures e == Some(Unclaimed) <==> ClusterId.Valid(clusterId) && binding == Err(Unclaimed)
  {
    if !ClusterId.Valid(clusterId) then Some(InvalidId)
    else match binding
         case Err(e) => Some(e)
         case Ok(actual) => if actual != clusterId then Some(Mismatch) else None
  }

  /** What a create-only claim registry may do: an owner, once there is one, stays. */
  predicate CreateOnly(before: Option<string>, after: Option<string>) {
    before.Some? ==> after == before
  }

  /**
    How a claim and its durability may move: an owner, once there is one, stays, and durability with
    it; only a crash takes an owner away, only one that was not durable, and one it leaves is durable.
   */
  predicate ClaimMove(before: Option<string>, durable: bool, after: Option<string>, stillDurable: bool, crash: bool) {
    && (stillDurable ==> after.Some?)
    && match before
       case None => crash ==> after.None?
       case Some(_) =>
         || (after == before && (durable || crash ==> stillDurable))
         || (crash && !durable && after.None?)
  }
}
