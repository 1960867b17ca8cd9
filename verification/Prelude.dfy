/** Small value types shared by every module. */
module Prelude {

  /** A digest of texts: SHA-256 in the program, any function here. */
  type Hash = string -> string

  datatype Option<+T> = None | Some(value: T)

  /** The exceptions the modelled code raises, by class. */
  datatype Error =
    | ValueError
    | KeyError
    | TypeError
    | IntegrityError
    | RuntimeError
    | ConcurrentWriteError
    | UncertainAction
    | UncertainSideEffect
    | UnclaimedSideEffect
    | BudgetExceeded
    | UnresolvedAction
    | CapsuleWouldLeak
    | AuthorizationError
    | AttestationError
    | EffectFailed
    | FileNotFound

  datatype Outcome<+T> = Ok(value: T) | Raised(error: Error)

  ghost predicate Distinct<T(!new)>(xs: seq<T>) {
    forall i, j :: 0 <= i < j < |xs| ==> xs[i] != xs[j]
  }

  lemma SubsetSize<T>(a: set<T>, b: set<T>)
    requires a <= b
    ensures |a| <= |b| && (|a| == |b| ==> a == b)
  {
    var c := b - a;
    assert a + c == b && a + {} == a;
    assert |b| == |a| + |c|;
  }
}
