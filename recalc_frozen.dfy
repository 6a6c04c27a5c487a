/**
 * The admin function that clears the fees and settlement of every returned
 * or frozen transaction (`recalculateFrozenReturned`).
 */
module RecalcFrozen {
  import opened Wrappers
  import opened Ledger
  import opened TxnStore

  /** The statuses whose transactions are cleared, in the order the response lists them. */
  const TargetStatuses: seq<string> := [Returned, FrozenBlocked, FrozenProcessing]

  /** `targetStatuses.includes(t.fund_status)`. */
  predicate IsTarget(t: Txn) {
    t.fund_status.Some? && t.fund_status.value in TargetStatuses
  }

  /** The patch: commission, fee, acceptance and settlement set to 0. */
  function Cleared(t: Txn): (r: Txn)
    ensures r.id == t.id
  {
    t.(commission_percentage := Some(0.0), transfer_fee := Some(0.0),
       acceptance_usdt := Some(0.0), settlement_usdt := Some(0.0))
  }

  /** One entry of `updates`: who was cleared, and the four values it had before. */
  datatype ClearedEntry = ClearedEntry(
    id: string, transaction_number: Option<string>, customer_name: Option<string>, fund_status: Option<string>,
    commission_percentage: Option<real>, transfer_fee: Option<real>,
    acceptance_usdt: Option<real>, settlement_usdt: Option<real>)

  function EntryOf(t: Txn): ClearedEntry {
    ClearedEntry(t.id, t.transaction_number, t.customer_name, t.fund_status,
                 t.commission_percentage, t.transfer_fee, t.acceptance_usdt, t.settlement_usdt)
  }

  function EntriesOf(ts: seq<Txn>): (r: seq<ClearedEntry>)
    ensures |r| == |ts| && forall i :: 0 <= i < |ts| ==> r[i] == EntryOf(ts[i])
  {
    seq(|ts|, i requires 0 <= i < |ts| => EntryOf(ts[i]))
  }

  /** The response: 403 for a caller who is not an admin, 500 when there is no caller, else the report. */
  datatype Response =
    | Forbidden
    | Failed
    | Done(total_checked: nat, total_updated: nat, target_statuses: seq<string>, updates: seq<ClearedEntry>)

  /** The stored records after the run: every target cleared, every other record as it was. */
  function ClearedAll(rs: seq<Txn>): (r: seq<Txn>)
    ensures |r| == |rs|
    ensures forall j :: 0 <= j < |rs| ==> r[j] == if IsTarget(rs[j]) then Cleared(rs[j]) else rs[j]
  {
    seq(|rs|, j requires 0 <= j < |rs| => if IsTarget(rs[j]) then Cleared(rs[j]) else rs[j])
  }

  /** Clearing is idempotent: a second run leaves the records as the first one left them. */
  lemma ClearedAllIdempotent(rs: seq<Txn>)
    ensures ClearedAll(ClearedAll(rs)) == ClearedAll(rs)
  {
    assert forall j :: 0 <= j < |rs| ==> IsTarget(ClearedAll(rs)[j]) == IsTarget(rs[j]);
  }

  /** After a run no target has a commission, fee, acceptance or settlement left, and nothing else changed. */
  lemma ClearedAllMeaning(rs: seq<Txn>)
    ensures forall j :: 0 <= j < |rs| && IsTarget(rs[j]) ==>
      Num(ClearedAll(rs)[j].commission_percentage) == 0.0 && Num(ClearedAll(rs)[j].transfer_fee) == 0.0
      && Num(ClearedAll(rs)[j].acceptance_usdt) == 0.0 && Num(ClearedAll(rs)[j].settlement_usdt) == 0.0
      && ClearedAll(rs)[j].fund_status == rs[j].fund_status && ClearedAll(rs)[j].deposit_amount == rs[j].deposit_amount
    ensures forall j :: 0 <= j < |rs| && !IsTarget(rs[j]) ==> ClearedAll(rs)[j] == rs[j]
  {
  }

  /** The three target statuses are exactly the ones the books treat as special. */
  lemma TargetsAreSpecial(t: Txn)
    ensures IsTarget(t) <==> Special(t)
  {
  }

  /** The records once the targets with the given ids have been cleared. */
  function PartlyCleared(rs: seq<Txn>, ids: set<string>): (r: seq<Txn>)
    ensures |r| == |rs|
  {
    seq(|rs|, j requires 0 <= j < |rs| => if IsTarget(rs[j]) && rs[j].id in ids then Cleared(rs[j]) else rs[j])
  }

  /** One loop step: updating a target by its id clears it and nothing else. */
  lemma ClearStep(rs: seq<Txn>, ids: set<string>, t: Txn)
    requires UniqueIds(rs) && t in rs && IsTarget(t)
    ensures Patched(PartlyCleared(rs, ids), t.id, Cleared) == PartlyCleared(rs, ids + {t.id})
  {
    var i :| 0 <= i < |rs| && rs[i] == t;
    assert forall j :: 0 <= j < |rs| && rs[j].id == t.id ==> j == i;
  }

  /** Once every target's id is processed, the records are `ClearedAll`. */
  lemma ClearDone(rs: seq<Txn>, targets: seq<Txn>, ids: set<string>)
    requires targets == Filter(rs, IsTarget)
    requires forall i :: 0 <= i < |targets| ==> targets[i].id in ids
    ensures PartlyCleared(rs, ids) == ClearedAll(rs)
  {
    forall j | 0 <= j < |rs| && IsTarget(rs[j])
      ensures rs[j].id in ids
    {
      assert rs[j] in targets;
      var i :| 0 <= i < |targets| && targets[i] == rs[j];
    }
  }

  /** The loop: each target in turn is cleared by its id and reported with its old values. */
  method ClearEach(store: Store, targets: seq<Txn>) returns (updates: seq<ClearedEntry>, ghost ids: set<string>)
    requires store.Valid()
    requires forall i :: 0 <= i < |targets| ==> targets[i] in store.records && IsTarget(targets[i])
    modifies store
    ensures store.Valid()
    ensures store.records == PartlyCleared(old(store.records), ids)
    ensures forall i :: 0 <= i < |targets| ==> targets[i].id in ids
    ensures updates == EntriesOf(targets)
  {
    ghost var all := store.records;
    updates, ids := [], {};
    var k := 0;
    while k < |targets|
      invariant 0 <= k <= |targets|
      invariant store.Valid() && UniqueIds(all)
      invariant store.records == PartlyCleared(all, ids)
      invariant forall i :: 0 <= i < k ==> targets[i].id in ids
      invariant updates == EntriesOf(targets[..k])
    {
      var t := targets[k];
      ClearStep(all, ids, t);
      store.Update(t.id, Cleared);
      ids := ids + {t.id};
      updates := updates + [EntryOf(t)];
      assert targets[..k + 1] == targets[..k] + [t];
      k := k + 1;
    }
    assert targets[..k] == targets;
  }

  /**
   * `recalculateFrozenReturned`. `role` is the caller's role, `None` when
   * there is no signed-in user (reading its role throws, answered with 500).
   */
  method RecalculateFrozenReturned(store: Store, role: Option<string>) returns (resp: Response)
    requires store.Valid()
    modifies store
    ensures store.Valid()
    ensures role.None? ==> resp == Failed && store.records == old(store.records)
    ensures role.Some? && role.value != "admin" ==> resp == Forbidden && store.records == old(store.records)
    ensures role == Some("admin") ==>
      var targets := Filter(old(store.records), IsTarget);
      && store.records == ClearedAll(old(store.records))
      && resp == Done(|old(store.records)|, |targets|, TargetStatuses, EntriesOf(targets))
  {
    if role.None? {
      return Failed;
    }
    if role.value != "admin" {
      return Forbidden;
    }
    var all := store.records;
    var targets := Filter(all, IsTarget);
    var updates, ids := ClearEach(store, targets);
    ClearDone(all, targets, ids);
    return Done(|all|, |updates|, TargetStatuses, updates);
  }
}
