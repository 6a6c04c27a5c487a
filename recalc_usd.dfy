/**
 * The admin function that recomputes the USDT acceptance of completed US
 * dollar deposits (`recalculateUsdAcceptance`): the acceptance becomes the
 * deposit divided by 1.02, rounded to cents, wherever the stored value is
 * more than a cent away from it.
 *
 * `round2` is `parseFloat(x.toFixed(2))`, a parameter because floating-point
 * formatting is not modelled.
 */
module RecalcUsd {
  import opened Wrappers
  import opened Ledger
  import opened TxnStore

  /** The currency label of US dollar deposits. */
  const UsdLabel := "USD美元"

  /** The store query: currency `USD美元` and status 已完成交易, matched exactly. */
  predicate InQuery(t: Txn) {
    t.currency == Some(UsdLabel) && t.fund_status == Some(Completed)
  }

  function Abs(x: real): real { if x < 0.0 then -x else x }

  /** `parseFloat((depositAmount / 1.02).toFixed(2))`. */
  function NewAcceptance(t: Txn, round2: real -> real): real {
    round2(Num(t.deposit_amount) / 1.02)
  }

  /** A positive deposit whose stored acceptance (0 when unset) is more than 0.01 from the new one. */
  predicate NeedsUpdate(t: Txn, round2: real -> real) {
    Num(t.deposit_amount) > 0.0 && Abs(Num(t.acceptance_usdt) - NewAcceptance(t, round2)) > 0.01
  }

  /** The patch `{ acceptance_usdt: v }`. */
  function SetAcceptance(v: real): (patch: Txn -> Txn)
    ensures KeepsId(patch)
  {
    (t: Txn) => t.(acceptance_usdt := Some(v))
  }

  /** A record after its acceptance is recomputed. */
  function Recomputed(t: Txn, round2: real -> real): Txn {
    SetAcceptance(NewAcceptance(t, round2))(t)
  }

  /** One entry of `details`. */
  datatype Detail = Detail(id: string, customer_name: Option<string>, deposit_amount: real,
                           old_acceptance: Option<real>, new_acceptance: real)

  function DetailOf(t: Txn, round2: real -> real): Detail {
    Detail(t.id, t.customer_name, Num(t.deposit_amount), t.acceptance_usdt, NewAcceptance(t, round2))
  }

  function DetailsOf(ts: seq<Txn>, round2: real -> real): (r: seq<Detail>)
    ensures |r| == |ts| && forall i :: 0 <= i < |ts| ==> r[i] == DetailOf(ts[i], round2)
  {
    seq(|ts|, i requires 0 <= i < |ts| => DetailOf(ts[i], round2))
  }

  function Stale(round2: real -> real): Txn -> bool {
    (t: Txn) => NeedsUpdate(t, round2)
  }

  /** The response: 403 for a missing or non-admin caller, else the report. */
  datatype Response =
    | Forbidden
    | Done(total_checked: nat, updated_count: nat, details: seq<Detail>)

  /** The stored records after a run: every stale USD completed record recomputed, the rest as they were. */
  function RecomputedAll(rs: seq<Txn>, round2: real -> real): (r: seq<Txn>)
    ensures |r| == |rs|
    ensures forall j :: 0 <= j < |rs| ==>
      r[j] == (if InQuery(rs[j]) && NeedsUpdate(rs[j], round2) then Recomputed(rs[j], round2) else rs[j])
  {
    seq(|rs|, j requires 0 <= j < |rs| =>
      if InQuery(rs[j]) && NeedsUpdate(rs[j], round2) then Recomputed(rs[j], round2) else rs[j])
  }

  /**
   * What a run guarantees: only the acceptance of a selected record with a
   * positive deposit changes; afterwards every selected record is up to date,
   * so a second run changes nothing.
   */
  lemma RecomputedAllSettles(rs: seq<Txn>, round2: real -> real)
    ensures forall j :: 0 <= j < |rs| && (!InQuery(rs[j]) || Num(rs[j].deposit_amount) <= 0.0) ==>
      RecomputedAll(rs, round2)[j] == rs[j]
    ensures forall j :: 0 <= j < |rs| ==>
      RecomputedAll(rs, round2)[j] == rs[j].(acceptance_usdt := RecomputedAll(rs, round2)[j].acceptance_usdt)
    ensures forall j :: 0 <= j < |rs| ==> !(InQuery(RecomputedAll(rs, round2)[j]) && NeedsUpdate(RecomputedAll(rs, round2)[j], round2))
    ensures RecomputedAll(RecomputedAll(rs, round2), round2) == RecomputedAll(rs, round2)
  {
    var r := RecomputedAll(rs, round2);
    forall j | 0 <= j < |rs|
      ensures !(InQuery(r[j]) && NeedsUpdate(r[j], round2))
    {
      if InQuery(rs[j]) && NeedsUpdate(rs[j], round2) {
        assert Num(r[j].acceptance_usdt) == NewAcceptance(r[j], round2);
      }
    }
  }

  /** The records once the query results with the given ids have been handled. */
  function PartlyRecomputed(rs: seq<Txn>, ids: set<string>, round2: real -> real): (r: seq<Txn>)
    ensures |r| == |rs|
  {
    seq(|rs|, j requires 0 <= j < |rs| =>
      if InQuery(rs[j]) && NeedsUpdate(rs[j], round2) && rs[j].id in ids then Recomputed(rs[j], round2) else rs[j])
  }

  /** One loop step on a stale record: updating it by its id recomputes it and nothing else. */
  lemma StaleStep(rs: seq<Txn>, ids: set<string>, t: Txn, round2: real -> real)
    requires UniqueIds(rs) && t in rs && InQuery(t) && NeedsUpdate(t, round2)
    ensures Patched(PartlyRecomputed(rs, ids, round2), t.id, SetAcceptance(NewAcceptance(t, round2)))
         == PartlyRecomputed(rs, ids + {t.id}, round2)
  {
    var i :| 0 <= i < |rs| && rs[i] == t;
    assert forall j :: 0 <= j < |rs| && rs[j].id == t.id ==> j == i;
  }

  /** One loop step on an up-to-date record: nothing to do. */
  lemma FreshStep(rs: seq<Txn>, ids: set<string>, t: Txn, round2: real -> real)
    requires UniqueIds(rs) && t in rs && !NeedsUpdate(t, round2)
    ensures PartlyRecomputed(rs, ids, round2) == PartlyRecomputed(rs, ids + {t.id}, round2)
  {
    var i :| 0 <= i < |rs| && rs[i] == t;
    assert forall j :: 0 <= j < |rs| && rs[j].id == t.id ==> j == i;
  }

  /** The ids of some records. */
  function IdsOf(ts: seq<Txn>): set<string> {
    set t | t in ts :: t.id
  }

  lemma IdsOfStep(ts: seq<Txn>, k: nat)
    requires k < |ts|
    ensures IdsOf(ts[..k + 1]) == IdsOf(ts[..k]) + {ts[k].id}
  {
    assert ts[..k + 1] == ts[..k] + [ts[k]];
  }

  /** Once every selected record is handled, the records are `RecomputedAll`. */
  lemma RecomputeDone(rs: seq<Txn>, selected: seq<Txn>, round2: real -> real)
    requires selected == Filter(rs, InQuery)
    ensures PartlyRecomputed(rs, IdsOf(selected), round2) == RecomputedAll(rs, round2)
  {
    forall j | 0 <= j < |rs| && InQuery(rs[j])
      ensures rs[j].id in IdsOf(selected)
    {
      assert rs[j] in selected;
    }
  }

  /** The details reported for the first `k` selected records. */
  function Reported(selected: seq<Txn>, k: nat, round2: real -> real): seq<Detail>
    requires k <= |selected|
  {
    if k == 0 then []
    else Reported(selected, k - 1, round2)
         + (if NeedsUpdate(selected[k - 1], round2) then [DetailOf(selected[k - 1], round2)] else [])
  }

  /** The details are those of the stale records, in the order they were selected. */
  lemma {:induction false} ReportedStale(selected: seq<Txn>, k: nat, round2: real -> real)
    requires k <= |selected|
    ensures Reported(selected, k, round2) == DetailsOf(Filter(selected[..k], Stale(round2)), round2)
  {
    if k > 0 {
      ReportedStale(selected, k - 1, round2);
      StaleSnoc(selected, k, round2);
    }
  }

  /** The `k`-th selected record adds its detail exactly when it is stale. */
  lemma StaleSnoc(selected: seq<Txn>, k: nat, round2: real -> real)
    requires 0 < k <= |selected|
    ensures DetailsOf(Filter(selected[..k], Stale(round2)), round2)
         == DetailsOf(Filter(selected[..k - 1], Stale(round2)), round2)
            + (if NeedsUpdate(selected[k - 1], round2) then [DetailOf(selected[k - 1], round2)] else [])
  {
    assert selected[..k][..k - 1] == selected[..k - 1];
  }

  /**
   * The loop body for the `k`-th selected record: a positive deposit whose
   * acceptance is off by more than a cent is updated and reported.
   */
  method RecomputeOne(store: Store, selected: seq<Txn>, k: nat, round2: real -> real, details: seq<Detail>,
                      ghost all: seq<Txn>)
      returns (updated: bool, details': seq<Detail>)
    requires k < |selected| && selected[k] in all && InQuery(selected[k])
    requires store.Valid() && UniqueIds(all)
    requires store.records == PartlyRecomputed(all, IdsOf(selected[..k]), round2)
    requires details == Reported(selected, k, round2)
    modifies store
    ensures store.Valid()
    ensures store.records == PartlyRecomputed(all, IdsOf(selected[..k + 1]), round2)
    ensures details' == Reported(selected, k + 1, round2)
    ensures |details'| == |details| + (if updated then 1 else 0)
  {
    var t := selected[k];
    IdsOfStep(selected, k);
    updated, details' := false, details;
    var deposit := Num(t.deposit_amount);
    if deposit > 0.0 {
      var v := round2(deposit / 1.02);
      if Abs(Num(t.acceptance_usdt) - v) > 0.01 {
        StaleStep(all, IdsOf(selected[..k]), t, round2);
        store.Update(t.id, SetAcceptance(v));
        updated := true;
        details' := details + [DetailOf(t, round2)];
      }
    }
    if !updated {
      FreshStep(all, IdsOf(selected[..k]), t, round2);
    }
  }

  /** The loop: each selected record in turn, updated and reported when stale. */
  method RecomputeEach(store: Store, selected: seq<Txn>, round2: real -> real)
      returns (updatedCount: nat, details: seq<Detail>)
    requires store.Valid()
    requires forall i :: 0 <= i < |selected| ==> selected[i] in store.records && InQuery(selected[i])
    modifies store
    ensures store.Valid()
    ensures store.records == PartlyRecomputed(old(store.records), IdsOf(selected), round2)
    ensures details == Reported(selected, |selected|, round2)
    ensures updatedCount == |details|
  {
    ghost var all := store.records;
    updatedCount, details := 0, [];
    var k := 0;
    while k < |selected|
      invariant 0 <= k <= |selected|
      invariant store.Valid() && UniqueIds(all)
      invariant store.records == PartlyRecomputed(all, IdsOf(selected[..k]), round2)
      invariant details == Reported(selected, k, round2)
      invariant updatedCount == |details|
    {
      var updated;
      updated, details := RecomputeOne(store, selected, k, round2, details, all);
      if updated {
        updatedCount := updatedCount + 1;
      }
      k := k + 1;
    }
    assert selected[..k] == selected;
  }

  /**
   * `recalculateUsdAcceptance`. `role` is the caller's role, `None` when
   * there is no signed-in user.
   */
  method RecalculateUsdAcceptance(store: Store, role: Option<string>, round2: real -> real) returns (resp: Response)
    requires store.Valid()
    modifies store
    ensures store.Valid()
    ensures role != Some("admin") ==> resp == Forbidden && store.records == old(store.records)
    ensures role == Some("admin") ==>
      var selected := Filter(old(store.records), InQuery);
      var stale := Filter(selected, Stale(round2));
      && store.records == RecomputedAll(old(store.records), round2)
      && resp == Done(|selected|, |stale|, DetailsOf(stale, round2))
  {
    if role.None? || role.value != "admin" {
      return Forbidden;
    }
    var all := store.records;
    var selected := Filter(all, InQuery);
    var updatedCount, details := RecomputeEach(store, selected, round2);
    RecomputeDone(all, selected, round2);
    ReportedStale(selected, |selected|, round2);
    assert selected[..|selected|] == selected;
    return Done(|selected|, updatedCount, details);
  }
}
