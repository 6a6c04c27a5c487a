/**
 * The `Transaction` entity store as the admin functions use it: the list of
 * stored records, and `update(id, patch)`, which rewrites the record with
 * that id. Record ids are the store's keys, so they are unique.
 */
module TxnStore {
  import opened Ledger

  /** No two records share an id. */
  ghost predicate UniqueIds(rs: seq<Txn>) {
    forall i, j :: 0 <= i < |rs| && 0 <= j < |rs| && rs[i].id == rs[j].id ==> i == j
  }

  /** A patch rewrites fields other than the id. */
  ghost predicate KeepsId(patch: Txn -> Txn) {
    forall t :: patch(t).id == t.id
  }

  /** The records after `update(id, patch)`. */
  function Patched(rs: seq<Txn>, id: string, patch: Txn -> Txn): (r: seq<Txn>)
    ensures |r| == |rs|
    ensures forall j :: 0 <= j < |rs| ==> r[j] == if rs[j].id == id then patch(rs[j]) else rs[j]
  {
    seq(|rs|, j requires 0 <= j < |rs| => if rs[j].id == id then patch(rs[j]) else rs[j])
  }

  /** With unique ids, an update rewrites the one record with that id and nothing else. */
  lemma PatchedOne(rs: seq<Txn>, i: nat, patch: Txn -> Txn)
    requires UniqueIds(rs) && i < |rs| && KeepsId(patch)
    ensures Patched(rs, rs[i].id, patch) == rs[i := patch(rs[i])]
    ensures UniqueIds(Patched(rs, rs[i].id, patch))
  {
  }

  class Store {
    var records: seq<Txn>

    ghost predicate Valid()
      reads this
    {
      UniqueIds(records)
    }

    constructor (rs: seq<Txn>)
      requires UniqueIds(rs)
      ensures records == rs && Valid()
    {
      records := rs;
    }

    /** `Transaction.update(id, patch)`. */
    method Update(id: string, patch: Txn -> Txn)
      requires Valid() && KeepsId(patch)
      modifies this
      ensures records == Patched(old(records), id, patch)
      ensures Valid()
    {
      records := Patched(records, id, patch);
    }
  }
}
