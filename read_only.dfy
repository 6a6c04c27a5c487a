/**
 * The shared read-only ledger page (`ReadOnlyView`): the check of the link
 * token, the search and status filter over the loaded transactions, and the
 * four summary counts.
 *
 * Decoding the token (`atob` and `JSON.parse`) is a library call and is a
 * parameter that yields no payload where the library throws; the clock
 * (`Date.now()`) is a parameter too.
 */
module ReadOnly {
  import opened Wrappers
  import opened Text
  import opened Ledger

  /** The decoded token: its `expiresAt` in epoch milliseconds, if present and numeric. */
  datatype TokenPayload = TokenPayload(expiresAt: Option<int>)

  type Decoder = string -> Option<TokenPayload>

  /** The base64url alphabet back to plain base64: `-` becomes `+` and `_` becomes `/`. */
  function FromUrlSafe(token: string): (r: string)
    ensures |r| == |token|
    ensures forall i :: 0 <= i < |r| ==> r[i] != '-' && r[i] != '_'
    ensures forall i :: 0 <= i < |r| && token[i] != '-' && token[i] != '_' ==> r[i] == token[i]
  {
    seq(|token|, i requires 0 <= i < |token| =>
      if token[i] == '-' then '+' else if token[i] == '_' then '/' else token[i])
  }

  /** The instant the token stops being valid, when it decodes and carries a truthy `expiresAt`. */
  function Deadline(token: Option<string>, decode: Decoder): Option<int> {
    if token.None? || token.value == "" then None
    else
      match decode(FromUrlSafe(token.value))
      case None => None
      case Some(payload) =>
        if payload.expiresAt.Some? && payload.expiresAt.value != 0 then payload.expiresAt else None
  }

  /** `validateToken`: a non-empty token that decodes to a payload whose `expiresAt` is after now. */
  predicate ValidateToken(token: Option<string>, now: int, decode: Decoder) {
    token.Some? && token.value != "" &&
    match decode(FromUrlSafe(token.value))
    case None => false
    case Some(payload) => payload.expiresAt.Some? && payload.expiresAt.value != 0 && now < payload.expiresAt.value
  }

  /**
   * A missing, empty or undecodable token, or one without an expiry, is never
   * valid; any other token is valid exactly before its deadline, so once
   * invalid by expiry it stays invalid.
   */
  lemma TokenExpiry(token: Option<string>, decode: Decoder)
    ensures Deadline(token, decode).None? ==> forall now :: !ValidateToken(token, now, decode)
    ensures Deadline(token, decode).Some? ==>
      forall now :: ValidateToken(token, now, decode) <==> now < Deadline(token, decode).value
  {
  }

  /** Validity only ends: a token valid at some instant was valid at every earlier one. */
  lemma ValidEarlier(token: Option<string>, decode: Decoder, earlier: int, now: int)
    requires earlier <= now && ValidateToken(token, now, decode)
    ensures ValidateToken(token, earlier, decode)
  {
  }

  /** `field?.toLowerCase().includes(term.toLowerCase())`: an absent field never matches. */
  predicate FieldMatches(field: Option<string>, term: string) {
    field.Some? && Contains(Lower(field.value), Lower(term))
  }

  /** The search: an empty term matches everything; else the name, number or account name contains it. */
  predicate MatchSearch(t: Txn, term: string) {
    term == ""
    || FieldMatches(t.customer_name, term)
    || FieldMatches(t.transaction_number, term)
    || FieldMatches(t.receiving_account_name, term)
  }

  /** The status filter: `all`, or exactly the transaction's status. */
  predicate MatchStatus(t: Txn, statusFilter: string) {
    statusFilter == "all" || t.fund_status == Some(statusFilter)
  }

  function Matches(term: string, statusFilter: string): Txn -> bool {
    (t: Txn) => MatchSearch(t, term) && MatchStatus(t, statusFilter)
  }

  /** `filtered`. */
  function Visible(ts: seq<Txn>, term: string, statusFilter: string): seq<Txn> {
    Filter(ts, Matches(term, statusFilter))
  }

  /**
   * The list shows, in the loaded order, exactly the transactions that pass
   * both the search and the status filter; with no search term and `all` it
   * shows everything.
   */
  lemma VisibleSelects(ts: seq<Txn>, term: string, statusFilter: string)
    ensures Subsequence(Visible(ts, term, statusFilter), ts)
    ensures forall t :: t in Visible(ts, term, statusFilter) <==>
      t in ts && MatchSearch(t, term) && MatchStatus(t, statusFilter)
    ensures term == "" && statusFilter == "all" ==> Visible(ts, term, statusFilter) == ts
  {
    FilterSubsequence(ts, Matches(term, statusFilter));
    if term == "" && statusFilter == "all" {
      FilterAll(ts, Matches(term, statusFilter));
    }
  }

  /** The search ignores ASCII case: the term and its lower-case form show the same list. */
  lemma SearchIgnoresCase(ts: seq<Txn>, term: string, statusFilter: string)
    ensures Visible(ts, term, statusFilter) == Visible(ts, Lower(term), statusFilter)
  {
    LowerIdempotent(term);
    assert term == "" <==> Lower(term) == "";
    FilterEquiv(ts, Matches(term, statusFilter), Matches(Lower(term), statusFilter));
  }

  /** A customer name that contains the term as typed is found, whatever the letter case. */
  lemma NameMatchFound(ts: seq<Txn>, t: Txn, term: string)
    requires t in ts && t.customer_name.Some? && Contains(t.customer_name.value, term)
    ensures t in Visible(ts, term, "all")
  {
    LowerContains(t.customer_name.value, term);
  }

  /** The summary cards. */
  datatype Summary = Summary(total: nat, waiting: nat, completed: nat, frozen: nat)

  /** The four cards: all loaded transactions, 等待中, 已完成交易, and any status containing 冻结. */
  function Counts(ts: seq<Txn>): (s: Summary)
    ensures s.waiting + s.completed + s.frozen <= s.total
  {
    StatusCountsWithinTotal(ts);
    Summary(|ts|, |Filter(ts, IsPending)|, |Filter(ts, IsCompleted)|, |Filter(ts, IsFrozen)|)
  }

  /** Both frozen statuses count on the frozen card, and a waiting or completed one does not. */
  lemma FrozenCardCovers(ts: seq<Txn>, t: Txn)
    requires t in ts
    ensures StatusIs(t, FrozenBlocked) || StatusIs(t, FrozenProcessing) ==> t in Filter(ts, IsFrozen)
    ensures IsPending(t) || IsCompleted(t) ==> t !in Filter(ts, IsFrozen)
  {
    StatusGroupsDisjoint(t);
  }
}
