/**
 * The message archive (`archiveMessage`): every inbound message is stored
 * with a category, tags, its attachment URLs and an analysis payload, which
 * later identity linking and batch processing read back.
 */
module Archive {
  import opened Wrappers
  import opened Text
  import opened Records

  /** A message's `category`. */
  datatype Category = Transaction | Inquiry | Other

  function CategoryText(c: Category): string {
    match c
    case Transaction => "transaction"
    case Inquiry => "inquiry"
    case Other => "other"
  }

  /** The `tags` a message can carry. */
  datatype Tag = TransactionTag | Greeting | HasAttachment | DocumentTag | PhotoTag

  function TagText(t: Tag): string {
    match t
    case TransactionTag => "transaction"
    case Greeting => "greeting"
    case HasAttachment => "has_attachment"
    case DocumentTag => "document"
    case PhotoTag => "photo"
  }

  /** A stored `TelegramMessage`. `created_ms` is the store's creation time; `None` stands for an unparseable one. */
  datatype StoredMessage = StoredMessage(
    chat_id: string,
    message_id: string,
    media_group_id: Option<string>,
    sender_name: string,
    content: string,
    file_urls: seq<string>,
    file_type: string,
    direction: string,
    tags: seq<Tag>,
    category: Category,
    status: string,
    analysis_result: Option<Analysis>,
    created_ms: Option<int>)

  /** The text mentions a transfer (`汇款`, `转账` or `水单`). */
  predicate MentionsTransfer(text: string) {
    Contains(text, "汇款") || Contains(text, "转账") || Contains(text, "水单")
  }

  /** The text is a greeting (`你好` or `在吗`). */
  predicate IsGreeting(text: string) {
    Contains(text, "你好") || Contains(text, "在吗")
  }

  /** The category for a text that does or does not mention a transfer and greet: a greeting wins. */
  function CategoryFor(mentions: bool, greeting: bool): (c: Category)
    ensures c == Inquiry <==> greeting
    ensures c == Transaction <==> !greeting && mentions
    ensures c == Other <==> !greeting && !mentions
  {
    if greeting then Inquiry else if mentions then Transaction else Other
  }

  /** The category a message is archived under. */
  function CategoryOf(text: string): Category {
    CategoryFor(MentionsTransfer(text), IsGreeting(text))
  }

  /** The tags the text earns: `transaction` before `greeting`. */
  function TextTags(mentions: bool, greeting: bool): seq<Tag> {
    (if mentions then [TransactionTag] else []) + (if greeting then [Greeting] else [])
  }

  /** The tags the attachments earn. */
  function FileTags(fileCount: nat, hasDocument: bool, hasPhoto: bool): seq<Tag> {
    if fileCount == 0 then []
    else [HasAttachment] + (if hasDocument then [DocumentTag] else []) + (if hasPhoto then [PhotoTag] else [])
  }

  /** All tags of a message. */
  function Tags(text: string, fileCount: nat, hasDocument: bool, hasPhoto: bool): seq<Tag> {
    TextTags(MentionsTransfer(text), IsGreeting(text)) + FileTags(fileCount, hasDocument, hasPhoto)
  }

  /** Which tags a message carries. */
  lemma TagsMembership(text: string, fileCount: nat, hasDocument: bool, hasPhoto: bool)
    ensures var tags := Tags(text, fileCount, hasDocument, hasPhoto);
      (TransactionTag in tags <==> MentionsTransfer(text))
      && (Greeting in tags <==> IsGreeting(text))
      && (HasAttachment in tags <==> fileCount > 0)
      && (DocumentTag in tags <==> fileCount > 0 && hasDocument)
      && (PhotoTag in tags <==> fileCount > 0 && hasPhoto)
  {
    TagsCover(MentionsTransfer(text), IsGreeting(text), fileCount, hasDocument, hasPhoto);
  }

  lemma TagsCover(mentions: bool, greeting: bool, fileCount: nat, hasDocument: bool, hasPhoto: bool)
    ensures var tags := TextTags(mentions, greeting) + FileTags(fileCount, hasDocument, hasPhoto);
      (TransactionTag in tags <==> mentions)
      && (Greeting in tags <==> greeting)
      && (HasAttachment in tags <==> fileCount > 0)
      && (DocumentTag in tags <==> fileCount > 0 && hasDocument)
      && (PhotoTag in tags <==> fileCount > 0 && hasPhoto)
  {
    var t := TextTags(mentions, greeting);
    var f := FileTags(fileCount, hasDocument, hasPhoto);
    assert forall x :: x in t ==> x == TransactionTag || x == Greeting;
    assert forall x :: x in f ==> x != TransactionTag && x != Greeting;
  }

  /** An empty text earns no tag and the category `other`. */
  lemma EmptyTextUntagged()
    ensures !MentionsTransfer("") && !IsGreeting("")
  {
    assert !StartsWith("", "汇款") && !StartsWith("", "转账") && !StartsWith("", "水单");
    assert !StartsWith("", "你好") && !StartsWith("", "在吗");
  }

  /** The payload stored for a message that carried only an identity document. */
  function IdCardPayload(name: string, age: Option<int>, nationality: string, year: int): Analysis {
    NoAnalysis.(
      image_type := Some(IdCard),
      name := Some(name),
      birth_date := if TruthyInt(age) then Some(IntToString(year - age.value)) else None,
      nationality := Some(nationality))
  }

  /** `analysisData`: the transfer evidence if any, else an identity payload if an identity photo was seen. */
  function Payload(transfer: Option<Analysis>, idCardPhotoUrl: string, name: string, age: Option<int>,
                   nationality: string, year: int): (r: Option<Analysis>)
    ensures transfer.Some? ==> r == transfer
    ensures r.None? <==> transfer.None? && idCardPhotoUrl == ""
  {
    if transfer.Some? then transfer
    else if idCardPhotoUrl != "" then Some(IdCardPayload(name, age, nationality, year))
    else None
  }

  /**
   * The record `archiveMessage` writes to the store at time `createdMs`: the
   * text (or a placeholder for a message without one), the file URLs and
   * their kind, the category and tags the text and files earn, the status
   * `processed`, and the transfer evidence or identity payload.
   */
  function Archived(chatId: int, messageId: int, mediaGroupId: Option<string>, userName: string,
                    messageText: string, allFileUrls: seq<string>, hasDocument: bool, hasPhoto: bool,
                    transfer: Option<Analysis>, idCardPhotoUrl: string, name: string, age: Option<int>,
                    nationality: string, year: int, createdMs: int): StoredMessage
  {
    StoredMessage(IntToString(chatId), IntToString(messageId), mediaGroupId, userName,
      if messageText != "" then messageText else if |allFileUrls| > 0 then "[文件消息]" else "[未知消息]",
      allFileUrls,
      if |allFileUrls| == 0 then "text" else if hasDocument then "document" else "photo",
      "incoming", Tags(messageText, |allFileUrls|, hasDocument, hasPhoto), CategoryOf(messageText), "processed",
      Payload(transfer, idCardPhotoUrl, name, age, nationality, year), Some(createdMs))
  }

  /** The category and the tags, built step by step as `archiveMessage` does. */
  method Classify(messageText: string, fileCount: nat, hasDocument: bool, hasPhoto: bool)
    returns (category: Category, tags: seq<Tag>)
    ensures category == CategoryOf(messageText)
    ensures tags == Tags(messageText, fileCount, hasDocument, hasPhoto)
  {
    category := Other;
    tags := [];
    if messageText != "" {
      if MentionsTransfer(messageText) {
        category := Transaction;
        tags := tags + [TransactionTag];
      }
      assert tags == if MentionsTransfer(messageText) then [TransactionTag] else [];
      if IsGreeting(messageText) {
        category := Inquiry;
        tags := tags + [Greeting];
      }
    }
    EmptyTextUntagged();
    assert tags == TextTags(MentionsTransfer(messageText), IsGreeting(messageText));
    if fileCount > 0 {
      tags := tags + [HasAttachment];
      if hasDocument {
        tags := tags + [DocumentTag];
      }
      if hasPhoto {
        tags := tags + [PhotoTag];
      }
    }
  }

  /**
   * `archiveMessage`: classifies the message, picks the payload and returns
   * the record written to the store at time `createdMs`.
   */
  method ArchiveMessage(chatId: int, messageId: int, mediaGroupId: Option<string>, userName: string,
                        messageText: string, allFileUrls: seq<string>, hasDocument: bool, hasPhoto: bool,
                        transfer: Option<Analysis>, idCardPhotoUrl: string, name: string, age: Option<int>,
                        nationality: string, year: int, createdMs: int)
    returns (m: StoredMessage)
    ensures m == Archived(chatId, messageId, mediaGroupId, userName, messageText, allFileUrls, hasDocument, hasPhoto,
                          transfer, idCardPhotoUrl, name, age, nationality, year, createdMs)
  {
    var category, tags := Classify(messageText, |allFileUrls|, hasDocument, hasPhoto);
    var analysisData: Option<Analysis> := None;
    if transfer.Some? {
      analysisData := transfer;
    } else if idCardPhotoUrl != "" {
      analysisData := Some(IdCardPayload(name, age, nationality, year));
    }
    var content := if messageText != "" then messageText else if |allFileUrls| > 0 then "[文件消息]" else "[未知消息]";
    var fileType := if |allFileUrls| > 0 then (if hasDocument then "document" else "photo") else "text";
    m := StoredMessage(IntToString(chatId), IntToString(messageId), mediaGroupId, userName, content,
      allFileUrls, fileType, "incoming", tags, category, "processed", analysisData, Some(createdMs));
  }
}
