/** Element-by-element traversal of a list with a fallible step, stopping at the first failure:
    the shape shared by every list encoder and decoder of the tunnel RPC codec. */
module Lists {
  import opened Wrappers

  /** Index of the first element on which `f` fails, or |xs| when every element succeeds. */
  function FirstFailure<A, B, E>(xs: seq<A>, f: A --> Result<B, E>): (k: nat)
    requires forall i :: 0 <= i < |xs| ==> f.requires(xs[i])
    ensures k <= |xs|
    ensures forall i :: 0 <= i < k ==> f(xs[i]).Success?
    ensures k < |xs| ==> f(xs[k]).Failure?
  {
    if xs == [] then 0
    else if f(xs[0]).Failure? then 0
    else 1 + FirstFailure(xs[1..], f)
  }

  /** The first failure is the unique index whose element fails after only successes. */
  lemma FirstFailureAt<A, B, E>(xs: seq<A>, f: A --> Result<B, E>, k: nat)
    requires forall i :: 0 <= i < |xs| ==> f.requires(xs[i])
    requires k <= |xs|
    requires forall i :: 0 <= i < k ==> f(xs[i]).Success?
    requires k < |xs| ==> f(xs[k]).Failure?
    ensures FirstFailure(xs, f) == k
  {
  }

  /** All elements mapped by `f`, in order, or the error of the first element that fails. */
  function Traverse<A, B, E>(xs: seq<A>, f: A --> Result<B, E>): (r: Result<seq<B>, E>)
    requires forall i :: 0 <= i < |xs| ==> f.requires(xs[i])
    ensures r.Success? <==> forall i :: 0 <= i < |xs| ==> f(xs[i]).Success?
    ensures r.Success? ==> |r.value| == |xs| && forall i :: 0 <= i < |xs| ==> r.value[i] == f(xs[i]).value
    ensures r.Failure? ==> FirstFailure(xs, f) < |xs| && r.error == f(xs[FirstFailure(xs, f)]).error
  {
    var k := FirstFailure(xs, f);
    if k < |xs| then
      Failure(f(xs[k]).error)
    else
      Success(seq(|xs|, i requires 0 <= i < |xs| && f(xs[i]).Success? => f(xs[i]).value))
  }
}
