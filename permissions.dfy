/**
 * The predicate-backed command permission: a leaf permission whose check is
 * a function of the sender, evaluated afresh at every check.
 */
module Permissions {

  /**
   * A permission holding a test of the sender. A sender whose state changes
   * is a different sender value, so nothing is remembered between checks.
   */
  datatype PredicatePermission<-C> = PredicatePermission(test: C -> bool) {

    /** `hasPermission(sender)`: the stored test applied to this sender. */
    function HasPermission(sender: C): (granted: bool)
      ensures granted <==> test(sender)
    {
      test(sender)
    }

    /** `getPermissions()`: the leaves this permission is built from, which is only itself. */
    function GetPermissions(): (leaves: seq<PredicatePermission<C>>)
      ensures |leaves| == 1 && leaves[0] == this
    {
      [this]
    }
  }

  /** `PredicatePermission.of(predicate)`: a permission granting exactly whom `test` accepts. */
  function Of<C>(test: C -> bool): (p: PredicatePermission<C>)
    ensures p.test == test
  {
    PredicatePermission(test)
  }

  /** A permission made by `of(test)` grants exactly the senders `test` accepts. */
  lemma OfGrantsExactly<C>(test: C -> bool, sender: C)
    ensures Of(test).HasPermission(sender) == test(sender)
  {
  }

  /** Introspection is faithful: every leaf listed grants exactly what the permission grants. */
  lemma LeavesAgreeWithPermission<C>(p: PredicatePermission<C>, sender: C)
    ensures forall leaf :: leaf in p.GetPermissions() ==> leaf.HasPermission(sender) == p.HasPermission(sender)
  {
  }
}
