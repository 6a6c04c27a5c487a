/**
 * Identity linking (`linkIdCardInfo`): the customer of a transfer is taken
 * from the identity document in the same message, or else from the most
 * recent archived identity document of the same chat that belongs to the
 * same media group or arrived in the last five minutes.
 */
module Identity {
  import opened Wrappers
  import opened Text
  import opened Records
  import opened Evidence
  import opened Archive

  /** How many archived messages the search looks at, newest first. */
  const SearchWindow: nat := 30

  /** Five minutes, in milliseconds. */
  const RecentMs: int := 5 * 60 * 1000

  /** The search predicate: same chat, an identity document, and same media group or recent enough. */
  predicate LinkMatches(m: StoredMessage, chatId: int, mediaGroupId: Option<string>, fiveMinutesAgo: int) {
    m.chat_id == IntToString(chatId)
    && m.analysis_result.Some? && m.analysis_result.value.image_type == Some(IdCard)
    && ((Truthy(mediaGroupId) && m.media_group_id == mediaGroupId)
        || (m.created_ms.Some? && m.created_ms.value >= fiveMinutesAgo))
  }

  /** `msgs.find(p)` from position `i` on: the index of the first element satisfying `p`. */
  function FirstWhere<T>(msgs: seq<T>, i: nat, p: T -> bool): (r: Option<nat>)
    requires i <= |msgs|
    ensures r.Some? ==> i <= r.value < |msgs| && p(msgs[r.value])
    ensures r.Some? ==> forall j :: i <= j < r.value ==> !p(msgs[j])
    ensures r.None? ==> forall j :: i <= j < |msgs| ==> !p(msgs[j])
    decreases |msgs| - i
  {
    if i == |msgs| then None
    else if p(msgs[i]) then Some(i)
    else FirstWhere(msgs, i + 1, p)
  }

  /** The archived identity document the search settles on, as an index into `msgs`. */
  function FirstLink(msgs: seq<StoredMessage>, chatId: int, mediaGroupId: Option<string>, fiveMinutesAgo: int)
    : Option<nat>
  {
    FirstWhere(msgs, 0, m => LinkMatches(m, chatId, mediaGroupId, fiveMinutesAgo))
  }

  /** The identity fields `info` writes into the candidate: each only when truthy. */
  function WithInfo(data: Candidate, info: IdInfo): Candidate {
    var d1 := if info.name != "" then data.(customer_name := Some(info.name)) else data;
    var d2 := if TruthyInt(info.age) then d1.(customer_age := info.age) else d1;
    if info.nationality != "" then d2.(customer_nationality := Some(info.nationality)) else d2
  }

  /**
   * What `linkIdCardInfo` leaves in `mergedData` and returns. `recent` is the
   * store's list by descending creation time, or `None` when listing fails
   * (the failure is logged and nothing is linked).
   */
  function Linked(data: Candidate, chatId: int, mediaGroupId: Option<string>, currentUrl: string,
                  name: string, age: Option<int>, recent: Option<seq<StoredMessage>>, nowMs: int, year: int)
    : (Candidate, string)
  {
    var d := WithInfo(data, IdInfo(name, age, ""));
    if name != "" || TruthyInt(age) || recent.None? then (d, currentUrl)
    else
      var msgs := Prefix(recent.value, SearchWindow);
      match FirstLink(msgs, chatId, mediaGroupId, nowMs - RecentMs)
      case None => (d, currentUrl)
      case Some(k) =>
        var m := msgs[k];
        (WithInfo(d, ExtractIdCardInfo(m.analysis_result, year)),
         if |m.file_urls| > 0 then m.file_urls[0] else currentUrl)
  }

  /** `linkIdCardInfo`: updates the candidate field by field and returns the linked document URL. */
  method LinkIdCardInfo(data: Candidate, chatId: int, mediaGroupId: Option<string>, currentUrl: string,
                        name: string, age: Option<int>, recent: Option<seq<StoredMessage>>, nowMs: int, year: int)
    returns (merged: Candidate, url: string)
    ensures (merged, url) == Linked(data, chatId, mediaGroupId, currentUrl, name, age, recent, nowMs, year)
  {
    merged := data;
    url := currentUrl;
    if name != "" {
      merged := merged.(customer_name := Some(name));
    }
    if TruthyInt(age) {
      merged := merged.(customer_age := age);
    }
    if name == "" && !TruthyInt(age) && recent.Some? {
      var msgs := Prefix(recent.value, SearchWindow);
      var fiveMinutesAgo := nowMs - RecentMs;
      var target := FirstLink(msgs, chatId, mediaGroupId, fiveMinutesAgo);
      if target.Some? {
        var m := msgs[target.value];
        var info := ExtractIdCardInfo(m.analysis_result, year);
        if info.name != "" {
          merged := merged.(customer_name := Some(info.name));
        }
        if TruthyInt(info.age) {
          merged := merged.(customer_age := info.age);
        }
        if info.nationality != "" {
          merged := merged.(customer_nationality := Some(info.nationality));
        }
        if |m.file_urls| > 0 {
          url := m.file_urls[0];
        }
      }
    }
  }

  /** Linking touches only the customer's name, age and nationality. */
  lemma LinkChangesOnlyCustomer(data: Candidate, chatId: int, mediaGroupId: Option<string>, currentUrl: string,
                                name: string, age: Option<int>, recent: Option<seq<StoredMessage>>, nowMs: int, year: int)
    ensures var r := Linked(data, chatId, mediaGroupId, currentUrl, name, age, recent, nowMs, year).0;
      r == data.(customer_name := r.customer_name, customer_age := r.customer_age,
                 customer_nationality := r.customer_nationality)
    ensures var r := Linked(data, chatId, mediaGroupId, currentUrl, name, age, recent, nowMs, year).0;
      Truthy(data.customer_name) ==> Truthy(r.customer_name)
  {
  }

  /**
   * Identity information already extracted from the current message is used
   * as is, and the archive is not consulted at all.
   */
  lemma ExtractedInfoSuppressesSearch(data: Candidate, chatId: int, mediaGroupId: Option<string>, currentUrl: string,
                                      name: string, age: Option<int>, recent: Option<seq<StoredMessage>>,
                                      other: Option<seq<StoredMessage>>, nowMs: int, year: int)
    requires name != "" || TruthyInt(age)
    ensures var (r, url) := Linked(data, chatId, mediaGroupId, currentUrl, name, age, recent, nowMs, year);
      url == currentUrl
      && r.customer_name == (if name != "" then Some(name) else data.customer_name)
      && r.customer_age == (if TruthyInt(age) then age else data.customer_age)
      && r.customer_nationality == data.customer_nationality
    ensures Linked(data, chatId, mediaGroupId, currentUrl, name, age, recent, nowMs, year)
         == Linked(data, chatId, mediaGroupId, currentUrl, name, age, other, nowMs, year)
  {
  }

  /** The search is scoped to the chat: without an archived message of this chat nothing is linked. */
  lemma OtherChatsNeverLink(data: Candidate, chatId: int, mediaGroupId: Option<string>,
                                               currentUrl: string, recent: seq<StoredMessage>, nowMs: int, year: int)
    requires forall m :: m in recent ==> m.chat_id != IntToString(chatId)
    ensures Linked(data, chatId, mediaGroupId, currentUrl, "", None, Some(recent), nowMs, year) == (data, currentUrl)
  {
  }

  /**
   * The most recent matching message among the first thirty wins: it gives
   * the linked URL (its first file) and its nationality.
   */
  lemma {:induction false} MostRecentMatchWins(data: Candidate, chatId: int, mediaGroupId: Option<string>,
                                               currentUrl: string, recent: seq<StoredMessage>, nowMs: int,
                                               year: int, k: nat)
    requires k < |recent| && k < SearchWindow
    requires LinkMatches(recent[k], chatId, mediaGroupId, nowMs - RecentMs)
    requires forall j :: 0 <= j < k ==> !LinkMatches(recent[j], chatId, mediaGroupId, nowMs - RecentMs)
    ensures var (r, url) := Linked(data, chatId, mediaGroupId, currentUrl, "", None, Some(recent), nowMs, year);
      var info := ExtractIdCardInfo(recent[k].analysis_result, year);
      r == WithInfo(data, info)
      && url == (if |recent[k].file_urls| > 0 then recent[k].file_urls[0] else currentUrl)
  {
    var msgs := Prefix(recent, SearchWindow);
    assert msgs[k] == recent[k];
    var t := FirstLink(msgs, chatId, mediaGroupId, nowMs - RecentMs);
    assert t == Some(k);
  }

  /** Messages beyond the thirty most recent are never consulted. */
  lemma {:induction false} SearchSeesOnlyWindow(data: Candidate, chatId: int, mediaGroupId: Option<string>,
                                                currentUrl: string, recent: seq<StoredMessage>,
                                                older: seq<StoredMessage>, nowMs: int, year: int)
    requires |recent| >= SearchWindow
    ensures Linked(data, chatId, mediaGroupId, currentUrl, "", None, Some(recent + older), nowMs, year)
         == Linked(data, chatId, mediaGroupId, currentUrl, "", None, Some(recent), nowMs, year)
  {
    assert Prefix(recent + older, SearchWindow) == Prefix(recent, SearchWindow);
  }

  /**
   * An identity document archived with an extracted age (as a birth year
   * `year - age`) gives back that age when it is linked in the same year,
   * together with the name.
   */
  lemma {:induction false} ArchivedAgeRoundTrip(name: string, age: int, nationality: string, year: int)
    requires age != 0 && 0 <= year - age < 10000
    ensures var info := ExtractIdCardInfo(Some(IdCardPayload(name, Some(age), nationality, year)), year);
      info == IdInfo(name, Some(age), nationality)
  {
    var birth := IntToString(year - age);
    ParseShortNat(year - age);
    assert birth == NatToString(year - age);
  }
}
