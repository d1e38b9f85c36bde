/**
 * What one reconciliation does to the scanned permission records: every
 * record the decision selects gets `enabled = true`, every other record is
 * left as it is.
 */
module Reconciler {

  import opened Policy
  import opened Roles

  /** The scanned records after the per-record updates, in scan order. */
  function Reconcile(ps: seq<Permission>, r: Reconciliation): (qs: seq<Permission>)
    ensures |qs| == |ps|
    ensures forall i :: 0 <= i < |ps| && ToEnable(r, ps[i]) ==> qs[i] == ps[i].(enabled := true)
    ensures forall i :: 0 <= i < |ps| && !ToEnable(r, ps[i]) ==> qs[i] == ps[i]
  {
    if ps == [] then []
    else [if ToEnable(r, ps[0]) then ps[0].(enabled := true) else ps[0]] + Reconcile(ps[1..], r)
  }

  /**
   * The frame of a reconciliation: only `enabled` may change, it changes only
   * from false to true, and exactly on the selected records that were disabled.
   */
  lemma ReconcileFrame(ps: seq<Permission>, r: Reconciliation, i: nat)
    requires i < |ps|
    ensures Reconcile(ps, r)[i].(enabled := ps[i].enabled) == ps[i]
    ensures Reconcile(ps, r)[i].enabled <==> ps[i].enabled || ToEnable(r, ps[i])
    ensures Reconcile(ps, r)[i] != ps[i] <==> ToEnable(r, ps[i]) && !ps[i].enabled
  {
  }

  /** Running a reconciliation on its own output changes nothing. */
  lemma ReconcileIdempotent(ps: seq<Permission>, r: Reconciliation)
    ensures Reconcile(Reconcile(ps, r), r) == Reconcile(ps, r)
  {
  }

  /** The role list after a reconciliation has been written back to the store. */
  function Reconciled(roles: seq<Role>, r: Reconciliation): (rs: seq<Role>)
    requires |roles| >= 2
    ensures |rs| == |roles| && |Scanned(rs)| == |Scanned(roles)|
  {
    WithScanned(roles, Reconcile(Scanned(roles), r))
  }

  /** A reconciliation keeps the roles, so a later one resolves the same targets. */
  lemma ReconciledKeepsTargets(roles: seq<Role>, r: Reconciliation)
    requires |roles| >= 2
    ensures ResolveTargets(Reconciled(roles, r)) == ResolveTargets(roles)
  {
    ResolveKeptByWriteBack(roles, Reconcile(Scanned(roles), r));
  }

  /** Reconciling the store a second time leaves it as the first time did. */
  lemma ReconciledIdempotent(roles: seq<Role>, r: Reconciliation)
    requires |roles| >= 2
    ensures Reconciled(Reconciled(roles, r), r) == Reconciled(roles, r)
  {
    ReconcileIdempotent(Scanned(roles), r);
  }

  /**
   * Reconciliations only ever set `enabled`, so two of them give the same
   * records whichever lands first (the collection updates are not awaited
   * before the user reconciliation starts).
   */
  lemma ReconcileCommute(ps: seq<Permission>, r1: Reconciliation, r2: Reconciliation)
    ensures Reconcile(Reconcile(ps, r1), r2) == Reconcile(Reconcile(ps, r2), r1)
  {
  }
}
