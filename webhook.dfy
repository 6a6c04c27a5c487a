/**
 * The webhook's entry point for one inbound message: the three commands are
 * answered first; any other message has its photo and document analysed and
 * is archived, and a transaction is attempted only when the text carries a
 * trigger word or the files carry transfer evidence.
 *
 * The Telegram file transfer, the store writes and listing, the analysis
 * services, the clock and the calendar are parameters (`Services`); replies
 * sent back to the chat and broadcasts are left out, the outcome says which
 * reply the source sends.
 */
module Webhook {
  import opened Wrappers
  import opened Text
  import opened Records
  import opened Evidence
  import opened Archive
  import opened Identity
  import opened Persist
  import SlipParser
  import Batch

  /** The words that ask for a transaction, matched ignoring case. */
  const TriggerKeywords: seq<string> :=
    ["汇款", "转账", "水单", "汇款单", "币种", "金额", "查收", "收款", "维护期", "IBAN", "银行", "账户"]

  /** How long a read-only link stays valid: 24 hours, in milliseconds. */
  const LinkLifetimeMs: int := 24 * 60 * 60 * 1000

  /** The commands, by the text that introduces them. */
  datatype Command = LedgerLink | ProcessBatch | Reanalyze | NoCommand

  /** Exactly 查账 once trimmed, or a text starting with `/process_batch` or `/reanalyze`, in that order. */
  function CommandOf(text: string): Command {
    if Trim(text) == "查账" then LedgerLink
    else if StartsWith(text, "/process_batch") then ProcessBatch
    else if StartsWith(text, "/reanalyze") then Reanalyze
    else NoCommand
  }

  /** The inbound Telegram message, with the parts the handler reads. */
  datatype Message = Message(
    chatId: int,
    messageId: int,
    text: Option<string>,
    caption: Option<string>,
    firstName: Option<string>,
    username: Option<string>,
    mediaGroupId: Option<string>,
    hasPhoto: bool,
    hasDocument: bool,
    replyTo: Option<int>)

  /** `message.text || message.caption || ''`. */
  function MessageText(m: Message): string {
    OrText(m.text, OrText(m.caption, ""))
  }

  /** `message.from?.first_name || message.from?.username || '用户'`. */
  function UserName(m: Message): string {
    OrText(m.firstName, OrText(m.username, "用户"))
  }

  /** `message.media_group_id || null`. */
  function GroupId(m: Message): Option<string> {
    if Truthy(m.mediaGroupId) then m.mediaGroupId else None
  }

  /**
   * What the handler gets from outside: the services, the calendar and the
   * store's answer to creating a record, shared with the batch command; the
   * text analysis; the uploaded URL of the message's largest photo and of its
   * document (`None` when the download or upload fails); the store's listing
   * of archived messages, newest first, from before this message (`None`
   * when listing fails); whether the archive write succeeds; the archive
   * time; and the time of the link search.
   */
  datatype Services = Services(
    env: Batch.Env,
    analyzeText: string -> Option<Analysis>,
    photoUpload: Option<string>,
    documentUpload: Option<string>,
    listing: Option<seq<StoredMessage>>,
    archiveSucceeds: bool,
    createdMs: int,
    nowMs: int)

  /** The files of a message and what they showed. */
  datatype Media = Media(
    fileUrls: seq<string>,
    idCardPhotoUrl: string,
    transferReceiptUrl: string,
    transfer: Option<Analysis>,
    name: string,
    age: Option<int>,
    nationality: string)

  const NoMedia := Media([], "", "", None, "", None, "")

  /**
   * The photo first: an identity document supplies the customer, anything
   * else the service recognises is the transfer evidence. Then the document:
   * its analysis is evidence only when the photo gave none.
   */
  function CollectMedia(m: Message, s: Services): Media {
    var afterPhoto :=
      if !m.hasPhoto || s.photoUpload.None? then NoMedia
      else
        var url := s.photoUpload.value;
        match s.env.analyzeImage(url)
        case None => NoMedia.(fileUrls := [url])
        case Some(a) =>
          if a.image_type == Some(IdCard) then
            var info := ExtractIdCardInfo(Some(a), s.env.year);
            NoMedia.(fileUrls := [url], idCardPhotoUrl := url, name := info.name, age := info.age,
                     nationality := info.nationality)
          else NoMedia.(fileUrls := [url], transfer := Some(a), transferReceiptUrl := url);
    if !m.hasDocument || s.documentUpload.None? then afterPhoto
    else
      var url := s.documentUpload.value;
      var withFile := afterPhoto.(fileUrls := afterPhoto.fileUrls + [url]);
      if afterPhoto.transfer.Some? then withFile
      else
        match DocumentEvidence(s.env.analyzeDocument(url))
        case None => withFile
        case Some(a) => withFile.(transfer := Some(a), transferReceiptUrl := url)
  }

  /** `TRANSACTION_TRIGGER_KEYWORDS.some(k => text.toLowerCase().includes(k.toLowerCase()))`. */
  predicate HasTrigger(text: string) {
    exists i :: 0 <= i < |TriggerKeywords| && Contains(Lower(text), Lower(TriggerKeywords[i]))
  }

  /** A JavaScript string's `length`: characters outside the Basic Multilingual Plane count twice. */
  function Utf16Length(s: string): (n: nat)
    ensures n >= |s|
  {
    if |s| == 0 then 0 else Utf16Length(s[..|s| - 1]) + (if s[|s| - 1] as int > 0xFFFF then 2 else 1)
  }

  /** The parsed text lacks the amount or the currency. */
  predicate Incomplete(d: Candidate) {
    !TruthyNum(d.deposit_amount) || !Truthy(d.currency)
  }

  /**
   * `textData`: the parsed slip text, overlaid with the text-analysis
   * service's fields when the parse lacks the amount or the currency and
   * the text is longer than ten UTF-16 units.
   */
  function TextData(text: string, year: nat, analyzeText: string -> Option<Analysis>): Candidate {
    var parsed := SlipParser.ParseText(text, year);
    if Incomplete(parsed) && Utf16Length(text) > 10 then
      match TextAnalysisFields(analyzeText(text))
      case None => parsed
      case Some(fields) => Overlay(parsed, fields)
    else parsed
  }

  /** `/reanalyze`'s target: the replied-to message, else the second space-separated word. */
  function ReanalyzeTarget(replyTo: Option<int>, text: string): Option<string> {
    if replyTo.Some? then Some(IntToString(replyTo.value))
    else
      var parts := Split(text, ' ');
      if |parts| > 1 && parts[1] != "" then Some(parts[1]) else None
  }

  /** What the handler ends with; each ends the request with `{ ok: true }`. */
  datatype Outcome =
    | LinkSent(expiresAt: int)
    | BatchDone(reply: Batch.Reply)
    | Reanalysed(target: Option<string>)
    | NothingToDo
    | ArchivedOnly
    | MissingFields
    | Created(txn: NewTxn)
    | CreateFailed

  /** The outcome, and the record archived on the way (`None` when nothing was archived). */
  datatype Handled = Handled(outcome: Outcome, archived: Option<StoredMessage>)

  /** The listing the identity search sees: the message just archived on top of the earlier ones. */
  function LinkListing(s: Services, archived: Option<StoredMessage>): Option<seq<StoredMessage>> {
    if s.listing.None? then None
    else if archived.Some? then Some([archived.value] + s.listing.value)
    else s.listing
  }

  /** The record of a message that is not a command, as it is archived. */
  function ArchivedOf(m: Message, s: Services, media: Media): StoredMessage {
    Archived(m.chatId, m.messageId, GroupId(m), UserName(m), MessageText(m), media.fileUrls, m.hasDocument,
             m.hasPhoto, media.transfer, media.idCardPhotoUrl, media.name, media.age, media.nationality,
             s.env.year, s.createdMs)
  }

  /** The transfer path once a transaction is attempted. */
  function Attempt(m: Message, s: Services, media: Media, archived: Option<StoredMessage>): Outcome {
    var text := MessageText(m);
    var merged := Merged(media.transfer, TextData(text, s.env.year, s.analyzeText));
    var (linked, linkedUrl) := Linked(merged, m.chatId, GroupId(m), media.idCardPhotoUrl, media.name, media.age,
                                      LinkListing(s, archived), s.nowMs, s.env.year);
    if Incomplete(linked) then MissingFields
    else
      match NewRecord(linked, m.chatId, IntToString(m.messageId), linkedUrl, media.transferReceiptUrl,
                      s.env.today, s.env.numberFor, s.env.addDays)
      case None => CreateFailed
      case Some(txn) => if s.env.createSucceeds(txn) then Created(txn) else CreateFailed
  }

  /** A message that is not a command: its files are collected, it is archived, and a transaction may follow. */
  function HandleOther(m: Message, s: Services): Handled {
    var text := MessageText(m);
    var media := CollectMedia(m, s);
    var archived := if s.archiveSucceeds then Some(ArchivedOf(m, s, media)) else None;
    if !m.hasPhoto && text == "" && !m.hasDocument then Handled(NothingToDo, archived)
    else if !HasTrigger(text) && media.transfer.None? then Handled(ArchivedOnly, archived)
    else Handled(Attempt(m, s, media, archived), archived)
  }

  /** The answer to a command. */
  function Answer(m: Message, s: Services): Handled
    requires CommandOf(MessageText(m)) != NoCommand
  {
    var text := MessageText(m);
    match CommandOf(text)
    case LedgerLink => Handled(LinkSent(s.nowMs + LinkLifetimeMs), None)
    case ProcessBatch =>
      Handled(BatchDone(if s.listing.None? then Batch.Failed else Batch.ProcessBatch(s.listing.value, m.chatId, s.env)),
              None)
    case Reanalyze => Handled(Reanalysed(ReanalyzeTarget(m.replyTo, text)), None)
    case NoCommand => Handled(NothingToDo, None)
  }

  /** What the webhook does with one message: a command is answered, anything else is handled as a file or text. */
  function Handle(m: Message, s: Services): Handled {
    if CommandOf(MessageText(m)) == NoCommand then HandleOther(m, s) else Answer(m, s)
  }

  /** The media steps of the handler, in the source's order. */
  method CollectFiles(m: Message, s: Services) returns (media: Media)
    ensures media == CollectMedia(m, s)
  {
    media := NoMedia;
    if m.hasPhoto && s.photoUpload.Some? {
      var imageUrl := s.photoUpload.value;
      media := media.(fileUrls := media.fileUrls + [imageUrl]);
      var analysis := s.env.analyzeImage(imageUrl);
      if analysis.Some? {
        if analysis.value.image_type == Some(IdCard) {
          var info := ExtractIdCardInfo(analysis, s.env.year);
          media := media.(idCardPhotoUrl := imageUrl, name := info.name, age := info.age,
                          nationality := info.nationality);
        } else if media.transfer.None? {
          media := media.(transfer := analysis, transferReceiptUrl := imageUrl);
        }
      }
    }
    if m.hasDocument && s.documentUpload.Some? {
      var fileUrl := s.documentUpload.value;
      media := media.(fileUrls := media.fileUrls + [fileUrl]);
      if media.transfer.None? {
        var analysis := DocumentEvidence(s.env.analyzeDocument(fileUrl));
        if analysis.Some? {
          media := media.(transfer := analysis, transferReceiptUrl := fileUrl);
        }
      }
    }
  }

  /** The transfer path of the handler: parse, ask the text service if needed, merge, link, create. */
  method AttemptTransaction(m: Message, s: Services, media: Media, archived: Option<StoredMessage>)
    returns (outcome: Outcome)
    ensures outcome == Attempt(m, s, media, archived)
  {
    var text := MessageText(m);
    var textData := ReadTextData(text, s.env.year, s.analyzeText);
    var mergedData := MergeTransferData(media.transfer, textData);
    var linkedData, linkedIdCardUrl := LinkIdCardInfo(mergedData, m.chatId, GroupId(m), media.idCardPhotoUrl,
                                                      media.name, media.age, LinkListing(s, archived), s.nowMs, s.env.year);
    if !TruthyNum(linkedData.deposit_amount) || !Truthy(linkedData.currency) {
      return MissingFields;
    }
    var created := CreateTransaction(linkedData, m.chatId, IntToString(m.messageId), linkedIdCardUrl,
                                     media.transferReceiptUrl, s.env.today, s.env.numberFor, s.env.addDays);
    if created.None? || !s.env.createSucceeds(created.value) {
      return CreateFailed;
    }
    return Created(created.value);
  }

  /** The slip parse, with the text service's fields over it when the parse lacks the amount or the currency. */
  method ReadTextData(text: string, year: nat, analyzeText: string -> Option<Analysis>) returns (textData: Candidate)
    ensures textData == TextData(text, year, analyzeText)
  {
    textData := SlipParser.ParseWaterSlip(text, year);
    if (!TruthyNum(textData.deposit_amount) || !Truthy(textData.currency)) && Utf16Length(text) > 10 {
      var llmData := TextAnalysisFields(analyzeText(text));
      if llmData.Some? {
        textData := Overlay(textData, llmData.value);
      }
    }
  }

  /** The handler (`Deno.serve`'s callback) for a request that carries a message. */
  method HandleMessage(m: Message, s: Services) returns (h: Handled)
    ensures h == Handle(m, s)
  {
    if CommandOf(MessageText(m)) == NoCommand {
      h := HandleOtherMessage(m, s);
    } else {
      h := AnswerCommand(m, s);
    }
  }

  /** The three commands, tried in the source's order. */
  method AnswerCommand(m: Message, s: Services) returns (h: Handled)
    requires CommandOf(MessageText(m)) != NoCommand
    ensures h == Answer(m, s)
  {
    var text := MessageText(m);
    if Trim(text) == "查账" {
      return Handled(LinkSent(s.nowMs + LinkLifetimeMs), None);
    }
    if StartsWith(text, "/process_batch") {
      var reply := Batch.Failed;
      if s.listing.Some? {
        reply := Batch.HandleProcessBatch(s.listing.value, m.chatId, s.env);
      }
      return Handled(BatchDone(reply), None);
    }
    return Handled(Reanalysed(ReanalyzeTarget(m.replyTo, text)), None);
  }

  /** The trigger-word test, one keyword after the other. */
  method FindTrigger(text: string) returns (hasKeywords: bool)
    ensures hasKeywords == HasTrigger(text)
  {
    hasKeywords := false;
    for i := 0 to |TriggerKeywords|
      invariant hasKeywords <==> exists j :: 0 <= j < i && Contains(Lower(text), Lower(TriggerKeywords[j]))
    {
      if Contains(Lower(text), Lower(TriggerKeywords[i])) {
        hasKeywords := true;
      }
    }
  }

  /** The handler past the command routing. */
  method HandleOtherMessage(m: Message, s: Services) returns (h: Handled)
    ensures h == HandleOther(m, s)
  {
    var text := MessageText(m);
    var media := CollectFiles(m, s);
    var archived: Option<StoredMessage> := None;
    if s.archiveSucceeds {
      var record := ArchiveMessage(m.chatId, m.messageId, GroupId(m), UserName(m), text, media.fileUrls,
                                   m.hasDocument, m.hasPhoto, media.transfer, media.idCardPhotoUrl, media.name,
                                   media.age, media.nationality, s.env.year, s.createdMs);
      archived := Some(record);
    }
    if !m.hasPhoto && text == "" && !m.hasDocument {
      return Handled(NothingToDo, archived);
    }
    var hasKeywords := FindTrigger(text);
    if !hasKeywords && media.transfer.None? {
      return Handled(ArchivedOnly, archived);
    }
    var outcome := AttemptTransaction(m, s, media, archived);
    return Handled(outcome, archived);
  }

  // ---------------------------------------------------------------- properties

  /**
   * A command is answered before any file is looked at: nothing is archived
   * and no transaction is attempted.
   */
  lemma CommandsComeFirst(m: Message, s: Services)
    requires CommandOf(MessageText(m)) != NoCommand
    ensures Handle(m, s).archived.None?
    ensures Handle(m, s).outcome.LinkSent? || Handle(m, s).outcome.BatchDone? || Handle(m, s).outcome.Reanalysed?
  {
  }

  /** An attempt ends in one of the three transfer outcomes. */
  lemma AttemptOutcomes(m: Message, s: Services, media: Media, archived: Option<StoredMessage>)
    ensures var o := Attempt(m, s, media, archived);
      o.MissingFields? || o.Created? || o.CreateFailed?
  {
  }

  /**
   * When the store refuses every record, an attempt that would have created
   * a transaction, or failed to, reports the failure instead; an attempt
   * stopped for missing fields is unchanged.
   */
  lemma CreateFailureReported(m: Message, s: Services, media: Media, archived: Option<StoredMessage>)
    ensures var o := Attempt(m, s, media, archived);
      var f := Attempt(m, s.(env := s.env.(createSucceeds := _ => false)), media, archived);
      && (f == CreateFailed <==> o.Created? || o.CreateFailed?)
      && (o.MissingFields? ==> f == MissingFields)
    ensures var o := Attempt(m, s, media, archived);
      o.Created? ==> s.env.createSucceeds(o.txn)
  {
  }

  /** A message that is not a command is archived exactly when the store accepts the write. */
  lemma OtherArchivedWhenStored(m: Message, s: Services)
    ensures HandleOther(m, s).archived.Some? <==> s.archiveSucceeds
  {
  }

  /** A message that is not a command never gets a command's answer. */
  lemma OtherNotAnswered(m: Message, s: Services)
    ensures var o := HandleOther(m, s).outcome;
      !(o.LinkSent? || o.BatchDone? || o.Reanalysed?)
  {
    var media := CollectMedia(m, s);
    AttemptOutcomes(m, s, media, if s.archiveSucceeds then Some(ArchivedOf(m, s, media)) else None);
  }

  /** Any other message is archived whenever the store accepts the write, whatever happens next. */
  lemma OthersArchived(m: Message, s: Services)
    requires CommandOf(MessageText(m)) == NoCommand
    ensures Handle(m, s).archived.Some? <==> s.archiveSucceeds
    ensures !(Handle(m, s).outcome.LinkSent? || Handle(m, s).outcome.BatchDone? || Handle(m, s).outcome.Reanalysed?)
  {
    OtherArchivedWhenStored(m, s);
    OtherNotAnswered(m, s);
  }

  /** A created transaction comes out of an attempt on the message's own files and archive record. */
  lemma CreatedByAttempt(m: Message, s: Services)
    requires Handle(m, s).outcome.Created?
    ensures Handle(m, s).outcome == Attempt(m, s, CollectMedia(m, s), Handle(m, s).archived)
  {
    var h := HandleOther(m, s);
    assert Handle(m, s) == h;
  }

  /** The read-only link is valid for a day from the moment it is asked for. */
  lemma LinkLastsADay(m: Message, s: Services)
    requires CommandOf(MessageText(m)) == LedgerLink
    ensures Handle(m, s).outcome == LinkSent(s.nowMs + 86400000)
  {
  }

  /**
   * A transaction is attempted only for a message with a trigger word or
   * with transfer evidence among its files.
   */
  lemma AttemptNeedsTrigger(m: Message, s: Services)
    ensures var o := Handle(m, s).outcome;
      o.MissingFields? || o.Created? || o.CreateFailed? ==>
        CommandOf(MessageText(m)) == NoCommand
        && (HasTrigger(MessageText(m)) || CollectMedia(m, s).transfer.Some?)
  {
  }

  /**
   * An attempt creates a transaction only with a non-zero amount and a
   * currency; the transaction starts waiting, points back at the chat and
   * the message it came from, and deposits the evidence's amount whenever the
   * files carried a truthy one, whatever the text said.
   */
  lemma AttemptCreates(m: Message, s: Services, media: Media, archived: Option<StoredMessage>)
    ensures var o := Attempt(m, s, media, archived);
      o.Created? ==>
        && o.txn.deposit_amount != 0.0 && Truthy(o.txn.currency)
        && o.txn.fund_status == "等待中"
        && o.txn.telegram_chat_id == IntToString(m.chatId)
        && o.txn.telegram_message_id == IntToString(m.messageId)
        && (media.transfer.Some? && TruthyNum(media.transfer.value.amount) ==>
              o.txn.deposit_amount == media.transfer.value.amount.value)
  {
    var textData := TextData(MessageText(m), s.env.year, s.analyzeText);
    var merged := Merged(media.transfer, textData);
    MergePrecedence(media.transfer, textData);
    LinkChangesOnlyCustomer(merged, m.chatId, GroupId(m), media.idCardPhotoUrl, media.name, media.age,
                            LinkListing(s, archived), s.nowMs, s.env.year);
    var (linked, linkedUrl) := Linked(merged, m.chatId, GroupId(m), media.idCardPhotoUrl, media.name, media.age,
                                      LinkListing(s, archived), s.nowMs, s.env.year);
    var messageId := IntToString(m.messageId);
    NewRecordDefaults(linked, m.chatId, messageId, linkedUrl, media.transferReceiptUrl,
                      s.env.today, s.env.numberFor, s.env.addDays);
    if NewRecord(linked, m.chatId, messageId, linkedUrl, media.transferReceiptUrl,
                 s.env.today, s.env.numberFor, s.env.addDays).Some? {
      NewRecordOpening(linked, m.chatId, messageId, linkedUrl, media.transferReceiptUrl,
                       s.env.today, s.env.numberFor, s.env.addDays);
    }
  }

  /**
   * No transaction without an amount and a currency: a created transaction
   * has a non-zero deposit and a currency, starts waiting, and points back at
   * the chat and the message it came from.
   */
  lemma CreatedHasAmountAndCurrency(m: Message, s: Services)
    ensures var o := Handle(m, s).outcome;
      o.Created? ==>
        o.txn.deposit_amount != 0.0 && Truthy(o.txn.currency)
        && o.txn.fund_status == "等待中"
        && o.txn.telegram_chat_id == IntToString(m.chatId)
        && o.txn.telegram_message_id == IntToString(m.messageId)
  {
    if Handle(m, s).outcome.Created? {
      CreatedByAttempt(m, s);
      AttemptCreates(m, s, CollectMedia(m, s), Handle(m, s).archived);
    }
  }

  /**
   * The text service is consulted only when the parse lacks the amount or
   * the currency and the text is longer than ten units: otherwise its answer
   * makes no difference.
   */
  lemma TextServiceOnlyWhenNeeded(text: string, year: nat, f: string -> Option<Analysis>, g: string -> Option<Analysis>)
    requires !Incomplete(SlipParser.ParseText(text, year)) || Utf16Length(text) <= 10
    ensures TextData(text, year, f) == SlipParser.ParseText(text, year)
    ensures TextData(text, year, f) == TextData(text, year, g)
  {
  }

  /**
   * When the service is consulted, its truthy amount and currency replace the
   * parsed ones, even when the parse found one of them.
   */
  lemma TextServiceOverwrites(text: string, year: nat, f: string -> Option<Analysis>)
    requires Incomplete(SlipParser.ParseText(text, year)) && Utf16Length(text) > 10 && f(text).Some?
    ensures var a := f(text).value;
      var parsed := SlipParser.ParseText(text, year);
      && TextData(text, year, f).deposit_amount == (if TruthyNum(a.amount) then a.amount else parsed.deposit_amount)
      && TextData(text, year, f).currency == (if Truthy(a.currency) then a.currency else parsed.currency)
  {
    TextAnalysisOverwrites(SlipParser.ParseText(text, year), f(text).value);
  }

  /**
   * The evidence's amount is the one recorded: a created transaction whose
   * files carried a truthy amount deposits exactly that amount, whatever the
   * text said.
   */
  lemma EvidenceAmountRecorded(m: Message, s: Services)
    ensures var o := Handle(m, s).outcome;
      var media := CollectMedia(m, s);
      o.Created? && media.transfer.Some? && TruthyNum(media.transfer.value.amount) ==>
        o.txn.deposit_amount == media.transfer.value.amount.value
  {
    if Handle(m, s).outcome.Created? {
      CreatedByAttempt(m, s);
      AttemptCreates(m, s, CollectMedia(m, s), Handle(m, s).archived);
    }
  }

  /** The trigger words are matched ignoring ASCII case: `iban` asks as `IBAN` does. */
  lemma TriggerIgnoresCase(text: string)
    ensures HasTrigger(text) <==> HasTrigger(Lower(text))
  {
    LowerIdempotent(text);
  }

  /**
   * An identity photo is never transfer evidence, and a document's analysis
   * is evidence only when the photo gave none and the analysis has an amount.
   */
  lemma EvidenceSources(m: Message, s: Services)
    ensures var media := CollectMedia(m, s);
      media.transfer.Some? ==>
        (media.transferReceiptUrl == s.photoUpload.GetOr("") && m.hasPhoto && media.idCardPhotoUrl == ""
         && media.transfer == s.env.analyzeImage(media.transferReceiptUrl)
         && media.transfer.value.image_type != Some(IdCard))
        || (m.hasDocument && Some(media.transferReceiptUrl) == s.documentUpload
            && TruthyNum(media.transfer.value.amount))
  {
  }
}
