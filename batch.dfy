/**
 * The `/process_batch` command (`handleProcessBatch`): it gathers the files
 * of a chat's waiting messages, sorts the analysed files into one identity
 * document and one transfer slip, and creates a transaction from the two.
 *
 * The analysis services are parameters (`None` where a service fails or
 * answers without data). The store's listing is the list of archived
 * messages newest first; marking a message processed is modelled as the
 * message with its new status, returned with a successful reply.
 */
module Batch {
  import opened Wrappers
  import opened Text
  import opened Records
  import opened Evidence
  import opened Archive
  import opened Persist
  import Ledger

  /** How many recent messages the command lists, and how many of them it takes at most. */
  const ListWindow: nat := 50
  const BatchLimit: nat := 10

  /** Waiting for a batch: in the chat, `pending_batch` or `unread`, and carrying at least one file. */
  predicate Pending(m: StoredMessage, chatId: int) {
    m.chat_id == IntToString(chatId) && (m.status == "pending_batch" || m.status == "unread") && |m.file_urls| > 0
  }

  function PendingIn(chatId: int): StoredMessage -> bool {
    (m: StoredMessage) => Pending(m, chatId)
  }

  /** `batchMessages`: the first ten waiting messages among the fifty most recent. */
  function BatchOf(recent: seq<StoredMessage>, chatId: int): seq<StoredMessage> {
    Prefix(Ledger.Filter(Prefix(recent, ListWindow), PendingIn(chatId)), BatchLimit)
  }

  /**
   * The batch holds at most ten messages, each a waiting message of the chat
   * listed among the fifty most recent; with fewer than ten it holds every
   * such message.
   */
  lemma BatchSelection(recent: seq<StoredMessage>, chatId: int)
    ensures |BatchOf(recent, chatId)| <= BatchLimit
    ensures forall m :: m in BatchOf(recent, chatId) ==> Pending(m, chatId) && m in Prefix(recent, ListWindow)
    ensures |BatchOf(recent, chatId)| < BatchLimit ==>
      forall m :: m in Prefix(recent, ListWindow) && Pending(m, chatId) ==> m in BatchOf(recent, chatId)
  {
    var all := Ledger.Filter(Prefix(recent, ListWindow), PendingIn(chatId));
    forall m | m in BatchOf(recent, chatId)
      ensures m in all
    {
      var i :| 0 <= i < |BatchOf(recent, chatId)| && BatchOf(recent, chatId)[i] == m;
      assert all[i] == m;
    }
  }

  /** A message as the batch leaves it once the transaction is created. */
  function MarkProcessed(m: StoredMessage): StoredMessage {
    m.(status := "processed")
  }

  /**
   * A processed message never waits for a batch again: neither the messages
   * a batch marks nor any message archived with status `processed`, which is
   * the status every message archived by the webhook carries.
   */
  lemma {:induction false} ProcessedNeverBatched(recent: seq<StoredMessage>, chatId: int)
    requires forall m :: m in recent ==> m.status == "processed"
    ensures BatchOf(recent, chatId) == []
  {
    assert forall m :: m in Prefix(recent, ListWindow) ==> m in recent;
    Ledger.FilterNone(Prefix(recent, ListWindow), PendingIn(chatId));
  }

  /** `batchMessages.flatMap(m => m.file_urls)`. */
  function FileUrls(ms: seq<StoredMessage>): (urls: seq<string>)
  {
    if |ms| == 0 then [] else FileUrls(ms[..|ms| - 1]) + ms[|ms| - 1].file_urls
  }

  /** Messages that each carry a file give at least one file, and at least as many files as messages. */
  lemma {:induction false} FileUrlsCover(ms: seq<StoredMessage>)
    requires forall m :: m in ms ==> |m.file_urls| > 0
    ensures |FileUrls(ms)| >= |ms|
  {
    if |ms| > 0 {
      FileUrlsCover(ms[..|ms| - 1]);
      assert ms[|ms| - 1] in ms;
    }
  }

  /** One analysed file: an image with the image service's data, a document with the document service's, or nothing. */
  datatype Item = Image(url: string, data: Analysis) | Document(url: string, data: Analysis) | Unrecognised

  /** The image service is asked first; the document service only when it gives nothing. */
  function ItemOf(url: string, analyzeImage: string -> Option<Analysis>, analyzeDocument: string -> Option<Analysis>)
    : Item
  {
    match analyzeImage(url)
    case Some(a) => Image(url, a)
    case None =>
      match DocumentEvidence(analyzeDocument(url))
      case Some(a) => Document(url, a)
      case None => Unrecognised
  }

  function Items(urls: seq<string>, analyzeImage: string -> Option<Analysis>, analyzeDocument: string -> Option<Analysis>)
    : (items: seq<Item>)
    ensures |items| == |urls|
  {
    seq(|urls|, i requires 0 <= i < |urls| => ItemOf(urls[i], analyzeImage, analyzeDocument))
  }

  predicate IsIdImage(it: Item) {
    it.Image? && it.data.image_type == Some(IdCard)
  }

  /** The first index below `n` that satisfies `p`. */
  function FirstSuch(n: nat, p: nat -> bool): (r: Option<nat>)
    ensures r.Some? ==> r.value < n && p(r.value) && forall j :: 0 <= j < r.value ==> !p(j)
    ensures r.None? ==> forall j :: 0 <= j < n ==> !p(j)
  {
    if n == 0 then None
    else
      match FirstSuch(n - 1, p)
      case Some(j) => Some(j)
      case None => if p(n - 1) then Some(n - 1) else None
  }

  function IdAt(items: seq<Item>): nat -> bool {
    (j: nat) => j < |items| && IsIdImage(items[j])
  }

  /**
   * A file that can serve as the slip: any recognised file except the first
   * identity document (a second identity document qualifies).
   */
  function SlipAt(items: seq<Item>): nat -> bool {
    (j: nat) => j < |items| && !items[j].Unrecognised? && FirstSuch(|items|, IdAt(items)) != Some(j)
  }

  /** The identity document of a batch, its age written back as the loop does. */
  function WithAge(a: Analysis, year: int): Analysis {
    a.(age := ExtractIdCardInfo(Some(a), year).age)
  }

  /** The classification loop's result: the first identity document and the first other recognised file. */
  datatype Picked = Picked(idCard: Option<(string, Analysis)>, slip: Option<(string, Analysis)>)

  function Picks(items: seq<Item>, year: int): Picked {
    Picked(IdPick(items, |items|, year), SlipPick(items, |items|))
  }

  /** The identity document among the first `k` files. */
  function IdPick(items: seq<Item>, k: nat, year: int): Option<(string, Analysis)>
    requires k <= |items|
  {
    match FirstSuch(k, IdAt(items))
    case Some(j) => Some((items[j].url, WithAge(items[j].data, year)))
    case None => None
  }

  /** The slip among the first `k` files. */
  function SlipPick(items: seq<Item>, k: nat): Option<(string, Analysis)>
    requires k <= |items|
  {
    match FirstSuch(k, SlipAt(items))
    case Some(j) => Some((items[j].url, items[j].data))
    case None => None
  }

  /** The loop over the analysed files, as the source writes it. */
  method Classify(items: seq<Item>, year: int) returns (picked: Picked)
    ensures picked == Picks(items, year)
  {
    var idCard: Option<(string, Analysis)> := None;
    var slip: Option<(string, Analysis)> := None;
    var k := 0;
    while k < |items|
      invariant 0 <= k <= |items|
      invariant idCard == IdPick(items, k, year) && slip == SlipPick(items, k)
    {
      PickStep(items, k, year);
      var item := items[k];
      if item.Image? {
        if IsIdImage(item) && idCard.None? {
          idCard := Some((item.url, WithAge(item.data, year)));
        } else if slip.None? {
          slip := Some((item.url, item.data));
        }
      } else if item.Document? && slip.None? {
        slip := Some((item.url, item.data));
      }
      k := k + 1;
    }
    picked := Picked(idCard, slip);
  }

  /**
   * One more file: the first identity image not yet preceded by one is the
   * identity document; any other recognised file, while no slip is chosen,
   * is the slip.
   */
  lemma PickStep(items: seq<Item>, k: nat, year: int)
    requires k < |items|
    ensures IdPick(items, k + 1, year)
         == if IsIdImage(items[k]) && IdPick(items, k, year).None?
            then Some((items[k].url, WithAge(items[k].data, year))) else IdPick(items, k, year)
    ensures SlipPick(items, k + 1)
         == if !items[k].Unrecognised? && !(IsIdImage(items[k]) && IdPick(items, k, year).None?)
               && SlipPick(items, k).None?
            then Some((items[k].url, items[k].data)) else SlipPick(items, k)
  {
    ClassifyStep(items, k);
    assert SlipAt(items)(k) <==> !items[k].Unrecognised? && !(IsIdImage(items[k]) && IdPick(items, k, year).None?);
  }

  /** How the first index below `k` relates to the first below `n`, one step at a time. */
  lemma FirstSuchStep(n: nat, k: nat, p: nat -> bool)
    requires k < n
    ensures FirstSuch(k, p).None? && p(k) ==> FirstSuch(n, p) == Some(k)
    ensures FirstSuch(k, p).None? && !p(k) ==> FirstSuch(n, p) != Some(k)
    ensures FirstSuch(k, p).Some? ==> FirstSuch(n, p) == FirstSuch(k, p) && FirstSuch(k, p) != Some(k)
  {
    var f := FirstSuch(n, p);
    var g := FirstSuch(k, p);
    if g.None? && p(k) {
      assert f.Some?;
      assert f.value <= k;
    }
    if g.Some? {
      assert f.Some?;
      assert f.value <= g.value;
      assert !(f.value < g.value);
    }
  }

  /** The facts one loop step needs about the first identity document. */
  lemma ClassifyStep(items: seq<Item>, k: nat)
    requires k < |items|
    ensures FirstSuch(k, IdAt(items)).None? && IsIdImage(items[k]) ==> FirstSuch(|items|, IdAt(items)) == Some(k)
    ensures FirstSuch(k, IdAt(items)).None? && !IsIdImage(items[k]) ==> FirstSuch(|items|, IdAt(items)) != Some(k)
    ensures FirstSuch(k, IdAt(items)).Some? ==>
      FirstSuch(|items|, IdAt(items)) == FirstSuch(k, IdAt(items)) && FirstSuch(k, IdAt(items)) != Some(k)
  {
    FirstSuchStep(|items|, k, IdAt(items));
  }

  /** `a || b` on optional strings. */
  function Or(a: Option<string>, b: Option<string>): Option<string> {
    if Truthy(a) then a else b
  }

  /**
   * `finalData`: the slip's fields (the document keys before the image keys
   * where both exist), the identity document's truthy name, age and
   * nationality over them, and the fixed maintenance period, commission and
   * rate.
   */
  function FinalData(slip: Option<Analysis>, idCard: Option<Analysis>, year: int): Candidate {
    var r := slip.GetOr(NoAnalysis);
    var info := ExtractIdCardInfo(idCard, year);
    Empty.(
      deposit_amount := r.amount,
      currency := r.currency,
      customer_name := if info.name != "" then Some(info.name) else r.customer_name,
      customer_age := if TruthyInt(info.age) then info.age else None,
      customer_nationality := if info.nationality != "" then Some(info.nationality) else None,
      receiving_account_name := Or(r.receiving_account_name, r.recipient_name),
      receiving_account_number := Or(r.receiving_account_number, r.account_number),
      bank_name := r.bank_name,
      deposit_date := Or(r.transfer_date, r.date),
      maintenance_days := Some(15),
      commission_percentage := Some(13.5),
      exchange_rate := Some(0.96))
  }

  /** The command's outcomes, in the order the source can stop. */
  datatype Reply =
    | NothingPending
    | NoFileLinks
    | NothingRecognised
    | Incomplete
    | Failed
    | Done(txn: NewTxn, linked: bool, marked: seq<StoredMessage>)

  /**
   * The context a batch runs in: the services, the clock, the calendar, and
   * the store's answer to creating a record (`false` when
   * `generateTransactionNumber` or `Transaction.create` throws for it).
   */
  datatype Env = Env(
    analyzeImage: string -> Option<Analysis>,
    analyzeDocument: string -> Option<Analysis>,
    year: nat,
    today: string,
    numberFor: string -> string,
    addDays: AddDays,
    createSucceeds: NewTxn -> bool)

  /** What `/process_batch` does in chat `chatId` with the store listing `recent`. */
  function ProcessBatch(recent: seq<StoredMessage>, chatId: int, env: Env): Reply {
    var batch := BatchOf(recent, chatId);
    if |batch| == 0 then NothingPending
    else if |FileUrls(batch)| == 0 then NoFileLinks
    else
      var picked := Picks(Items(FileUrls(batch), env.analyzeImage, env.analyzeDocument), env.year);
      if picked.idCard.None? && picked.slip.None? then NothingRecognised
      else
        var idData := if picked.idCard.Some? then Some(picked.idCard.value.1) else None;
        var slipData := if picked.slip.Some? then Some(picked.slip.value.1) else None;
        var data := FinalData(slipData, idData, env.year);
        if !TruthyNum(data.deposit_amount) || !Truthy(data.currency) then Incomplete
        else
          var idUrl := if picked.idCard.Some? then picked.idCard.value.0 else "";
          var slipUrl := if picked.slip.Some? then picked.slip.value.0 else "";
          match NewRecord(data, chatId, batch[|batch| - 1].message_id, idUrl, slipUrl, env.today, env.numberFor, env.addDays)
          case None => Failed
          case Some(txn) =>
            if !env.createSucceeds(txn) then Failed
            else Done(txn, picked.idCard.Some? && picked.slip.Some?, Marked(batch))
  }

  /** The batch's messages with status `processed`, in order. */
  function Marked(batch: seq<StoredMessage>): (r: seq<StoredMessage>)
    ensures |r| == |batch|
  {
    seq(|batch|, i requires 0 <= i < |batch| => MarkProcessed(batch[i]))
  }

  /** The update of every batch message, one after the other. */
  method MarkAll(batch: seq<StoredMessage>) returns (marked: seq<StoredMessage>)
    ensures marked == Marked(batch)
  {
    marked := [];
    var i := 0;
    while i < |batch|
      invariant 0 <= i <= |batch|
      invariant marked == Marked(batch[..i])
    {
      assert Marked(batch[..i + 1]) == Marked(batch[..i]) + [MarkProcessed(batch[i])];
      marked := marked + [MarkProcessed(batch[i])];
      i := i + 1;
    }
    assert batch[..i] == batch;
  }

  /** `handleProcessBatch`, step by step. */
  method HandleProcessBatch(recent: seq<StoredMessage>, chatId: int, env: Env) returns (reply: Reply)
    ensures reply == ProcessBatch(recent, chatId, env)
  {
    var batch := BatchOf(recent, chatId);
    if |batch| == 0 {
      return NothingPending;
    }
    var allImages := FileUrls(batch);
    if |allImages| == 0 {
      return NoFileLinks;
    }
    var items := Items(allImages, env.analyzeImage, env.analyzeDocument);
    var picked := Classify(items, env.year);
    if picked.idCard.None? && picked.slip.None? {
      return NothingRecognised;
    }
    var idData := if picked.idCard.Some? then Some(picked.idCard.value.1) else None;
    var slipData := if picked.slip.Some? then Some(picked.slip.value.1) else None;
    var finalData := FinalData(slipData, idData, env.year);
    if !TruthyNum(finalData.deposit_amount) || !Truthy(finalData.currency) {
      return Incomplete;
    }
    var idUrl := if picked.idCard.Some? then picked.idCard.value.0 else "";
    var slipUrl := if picked.slip.Some? then picked.slip.value.0 else "";
    var created := CreateTransaction(finalData, chatId, batch[|batch| - 1].message_id, idUrl, slipUrl,
                                     env.today, env.numberFor, env.addDays);
    if created.None? || !env.createSucceeds(created.value) {
      return Failed;
    }
    var marked := MarkAll(batch);
    return Done(created.value, idData.Some? && slipData.Some?, marked);
  }

  /** Every waiting message carries a file, so a non-empty batch always has files to analyse. */
  lemma NeverWithoutFiles(recent: seq<StoredMessage>, chatId: int, env: Env)
    ensures ProcessBatch(recent, chatId, env) != NoFileLinks
  {
    var batch := BatchOf(recent, chatId);
    BatchSelection(recent, chatId);
    FileUrlsCover(batch);
  }

  /**
   * A transaction is created only from a slip with a truthy amount and
   * currency; without a slip there is never one. Its numbers are the
   * batch's fixed rate 0.96, commission 13.5 and 15 days of maintenance,
   * and every message of the batch, and only those, is marked processed.
   */
  lemma DoneNeedsSlip(recent: seq<StoredMessage>, chatId: int, env: Env)
    ensures var r := ProcessBatch(recent, chatId, env);
      r.Done? ==>
        var picked := Picks(Items(FileUrls(BatchOf(recent, chatId)), env.analyzeImage, env.analyzeDocument), env.year);
        && picked.slip.Some?
        && TruthyNum(picked.slip.value.1.amount) && r.txn.deposit_amount == picked.slip.value.1.amount.value
        && Truthy(picked.slip.value.1.currency) && r.txn.currency == picked.slip.value.1.currency
        && r.txn.exchange_rate == 0.96 && r.txn.commission_percentage == 13.5 && r.txn.maintenance_days == 15
        && env.createSucceeds(r.txn)
        && |r.marked| == |BatchOf(recent, chatId)|
        && forall i :: 0 <= i < |r.marked| ==>
             r.marked[i] == BatchOf(recent, chatId)[i].(status := "processed") && !Pending(r.marked[i], chatId)
  {
    var r := ProcessBatch(recent, chatId, env);
    if r.Done? {
      var batch := BatchOf(recent, chatId);
      var picked := Picks(Items(FileUrls(batch), env.analyzeImage, env.analyzeDocument), env.year);
      var idData := if picked.idCard.Some? then Some(picked.idCard.value.1) else None;
      var slipData := if picked.slip.Some? then Some(picked.slip.value.1) else None;
      var data := FinalData(slipData, idData, env.year);
      var idUrl := if picked.idCard.Some? then picked.idCard.value.0 else "";
      var slipUrl := if picked.slip.Some? then picked.slip.value.0 else "";
      NewRecordDefaults(data, chatId, batch[|batch| - 1].message_id, idUrl, slipUrl, env.today, env.numberFor, env.addDays);
      assert r.marked == Marked(batch);
      MarkedMeaning(batch, chatId);
    }
  }

  /**
   * When the store refuses every record, the batch never completes: where it
   * would have created a transaction, or failed to, it fails, and no message
   * is marked processed; every earlier stop is unchanged.
   */
  lemma CreateFailureMarksNothing(recent: seq<StoredMessage>, chatId: int, env: Env)
    ensures var r := ProcessBatch(recent, chatId, env);
      var f := ProcessBatch(recent, chatId, env.(createSucceeds := _ => false));
      && !f.Done?
      && (f == Failed <==> r.Failed? || r.Done?)
      && (!r.Failed? && !r.Done? ==> f == r)
  {
    var failing := env.(createSucceeds := _ => false);
    assert failing.analyzeImage == env.analyzeImage && failing.analyzeDocument == env.analyzeDocument;
    assert failing.year == env.year && failing.today == env.today;
    assert failing.numberFor == env.numberFor && failing.addDays == env.addDays;
  }

  /** Each batch message marked processed, in order, and no longer pending. */
  lemma MarkedMeaning(batch: seq<StoredMessage>, chatId: int)
    ensures forall i :: 0 <= i < |Marked(batch)| ==>
      Marked(batch)[i] == batch[i].(status := "processed") && !Pending(Marked(batch)[i], chatId)
  {
  }

  /**
   * The identity document wins over the slip for the customer: its truthy
   * name, age and nationality are the ones the transaction carries.
   */
  lemma IdentityFromFirstIdCard(slip: Option<Analysis>, idCard: Analysis, year: int)
    ensures var info := ExtractIdCardInfo(Some(idCard), year);
      var d := FinalData(slip, Some(idCard), year);
      && (info.name != "" ==> d.customer_name == Some(info.name))
      && (TruthyInt(info.age) ==> d.customer_age == info.age)
      && (info.nationality != "" ==> d.customer_nationality == Some(info.nationality))
    ensures FinalData(slip, Some(WithAge(idCard, year)), year) == FinalData(slip, Some(idCard), year)
  {
    ExtractAfterAgeWriteBack(idCard, year);
  }

  /**
   * The first identity document among the files is the one picked, and the
   * slip is the first other recognised file: a file before it is either
   * unrecognised or that identity document.
   */
  lemma PicksFirst(items: seq<Item>, year: int, j: nat)
    requires j < |items|
    ensures IsIdImage(items[j]) && (forall i :: 0 <= i < j ==> !IsIdImage(items[i])) ==>
      Picks(items, year).idCard == Some((items[j].url, WithAge(items[j].data, year)))
    ensures Picks(items, year).slip.Some? && !items[j].Unrecognised? && !IsIdImage(items[j]) ==>
      exists i :: 0 <= i <= j && !items[i].Unrecognised? && Picks(items, year).slip == Some((items[i].url, items[i].data))
  {
    var f := FirstSuch(|items|, IdAt(items));
    if IsIdImage(items[j]) && (forall i :: 0 <= i < j ==> !IsIdImage(items[i])) {
      assert IdAt(items)(j);
      assert f == Some(j);
    }
    if Picks(items, year).slip.Some? && !items[j].Unrecognised? && !IsIdImage(items[j]) {
      assert SlipAt(items)(j);
      var s := FirstSuch(|items|, SlipAt(items));
      assert s.value <= j;
    }
  }
}
