/** The update processors: each decides whether it claims an update and,
    if so, returns an optional immediate acknowledgement and an optional
    deferred action. Downloads and uploads are given as their outcome, and
    callback data as the map the callback storage holds. */
module UpdateProcessors {
  import opened Wrappers
  import opened JavaStrings
  import opened Documents
  import opened Storage
  import opened TelegramApi

  // ---------------------------------------------------------------------
  // CallbackUpdateProcessor

  /** Claims an update with a callback query whose data names stored
      callback data, with no acknowledgement and the resolution deferred. */
  function CallbackProcessUpdate(update: Update, callbackData: map<string, TelegramInlineCallbackData>)
    : (r: Option<ProcessingResult>)
    ensures r.Some? <==> update.callbackQuery.Some? && update.callbackQuery.value.data in callbackData
    ensures r.Some? ==>
      var q := update.callbackQuery.value;
      && r.value.messageAcceptedResponse.None?
      && r.value.stateUpdate == Some(ResolveCallback(q.userName, q.chatId, q.messageId, callbackData[q.data]))
  {
    if update.callbackQuery.None? then None
    else
      var callback := update.callbackQuery.value;
      if callback.data !in callbackData then None
      else
        Some(ProcessingResult(None, Some(ResolveCallback(callback.userName, callback.chatId,
                                                         callback.messageId, callbackData[callback.data]))))
  }

  /** The keyboard offered once the mandatory documents are in: YES on the
      first row, NO on the second. */
  const FINISH_QUESTION_KEYBOARD: Markup :=
    ReplyKeyboard([[ANSWER_YES_DOCUMENT_WILL_BE_SUBMITTED_YET], [ANSWER_NO_ALL_DOCUMENTS_ARE_THERE]], true, true)

  /** What the deferred callback action sends once storage has answered
      with the user's new status: the prompt is always deleted; a finished
      user is thanked; a user with the mandatory documents in is asked
      whether more will follow. */
  function CallbackResponses(chatId: int, messageId: int, newFlowStatus: FlowStatus): (r: seq<BotAction>)
    ensures 1 <= |r| <= 2 && r[0] == DeleteMessage(chatId, messageId)
    ensures newFlowStatus == FINISHED ==>
      r == [DeleteMessage(chatId, messageId), Send(SendMessage(chatId, ALL_DOCUMENTS_RECEIVED, NoMarkup))]
    ensures newFlowStatus == MANDATORY_DOCUMENTS_SUBMITTED ==>
      r == [DeleteMessage(chatId, messageId), Send(SendMessage(chatId, ARE_YOU_FINISHED, FINISH_QUESTION_KEYBOARD))]
    ensures |r| == 2 <==> newFlowStatus == FINISHED || newFlowStatus == MANDATORY_DOCUMENTS_SUBMITTED
  {
    var deleteAnsweredMessageResponse := DeleteMessage(chatId, messageId);
    if newFlowStatus == FINISHED then
      [deleteAnsweredMessageResponse, Send(SendMessage(chatId, ALL_DOCUMENTS_RECEIVED, NoMarkup))]
    else if newFlowStatus == MANDATORY_DOCUMENTS_SUBMITTED then
      [deleteAnsweredMessageResponse, Send(SendMessage(chatId, ARE_YOU_FINISHED, FINISH_QUESTION_KEYBOARD))]
    else
      [deleteAnsweredMessageResponse]
  }

  // ---------------------------------------------------------------------
  // Text processors (TextUpdateProcessor and its implementations)

  datatype TextProcessor = CustomKeyboardProcessor | ManualFinishProcessor | FallbackProcessor

  predicate IsResponsible(p: TextProcessor, messageText: string)
  {
    match p
    case CustomKeyboardProcessor => StartsWith(messageText, "/keyboard")
    case ManualFinishProcessor =>
      messageText == ANSWER_NO_ALL_DOCUMENTS_ARE_THERE || messageText == ANSWER_YES_DOCUMENT_WILL_BE_SUBMITTED_YET
    case FallbackProcessor => true
  }

  /** The reply markup of the /keyboard debug command: the first of
      "reply", "force" and "inline" the text contains picks the keyboard;
      with none of them the keyboard is removed. */
  function KeyboardMarkup(messageText: string): (m: Markup)
    ensures Contains(messageText, "reply") ==> m.ReplyKeyboard?
    ensures !Contains(messageText, "reply") && Contains(messageText, "force") ==> m == ForceReply
    ensures !Contains(messageText, "reply") && !Contains(messageText, "force") && Contains(messageText, "inline")
      ==> m.InlineKeyboard?
    ensures m == KeyboardRemove <==>
      !Contains(messageText, "reply") && !Contains(messageText, "force") && !Contains(messageText, "inline")
  {
    if Contains(messageText, "reply") then
      ReplyKeyboard([["Some text 1"], ["Some text 2"], ["Some text 31", "Some text 32"]], true, true)
    else if Contains(messageText, "force") then
      ForceReply
    else if Contains(messageText, "inline") then
      InlineKeyboard([
        [InlineButton("Document type INN", "inn"), InlineButton("Column 2", "column2")],
        [InlineButton("Document type Passport", "passport")],
        [InlineButton("Document type photo", "photo")]])
    else
      KeyboardRemove
  }

  /** processTextMessage of each text processor. */
  function ProcessTextMessage(p: TextProcessor, messageText: string, message: Message): (r: Option<ProcessingResult>)
    ensures p == FallbackProcessor <==> r.None?
    ensures p == CustomKeyboardProcessor ==>
      r == Some(ProcessingResult(Some(SendMessage(message.chatId, RECOGNISE_IMAGE_TEXT, KeyboardMarkup(messageText))), None))
    ensures p == ManualFinishProcessor ==> r.value.messageAcceptedResponse.None?
    ensures p == ManualFinishProcessor ==>
      (r.value.stateUpdate.Some? <==> messageText == ANSWER_NO_ALL_DOCUMENTS_ARE_THERE)
  {
    match p
    case CustomKeyboardProcessor =>
      Some(ProcessingResult(Some(SendMessage(message.chatId, RECOGNISE_IMAGE_TEXT, KeyboardMarkup(messageText))), None))
    case ManualFinishProcessor =>
      if messageText == ANSWER_NO_ALL_DOCUMENTS_ARE_THERE then
        Some(ProcessingResult(None, Some(ForceFinish(message.userName, message.chatId))))
      else
        Some(ProcessingResult(None, None))
    case FallbackProcessor =>
      None
  }

  /** The default processMessage of a text processor: decline a message
      without text, then one the processor is not responsible for, else
      delegate. */
  function TextProcessMessage(p: TextProcessor, message: Message): (r: Option<ProcessingResult>)
    ensures message.text.None? ==> r.None?
    ensures message.text.Some? && !IsResponsible(p, message.text.value) ==> r.None?
    ensures message.text.Some? && IsResponsible(p, message.text.value) ==>
      r == ProcessTextMessage(p, message.text.value, message)
  {
    if message.text.None? then None
    else if !IsResponsible(p, message.text.value) then None
    else ProcessTextMessage(p, message.text.value, message)
  }

  // ---------------------------------------------------------------------
  // UploadDocumentUpdateProcessor

  /** The cloud file name: username, '_', and the document's file name
      (string concatenation renders a missing name as "null"). */
  function DocumentCloudName(userName: string, fileName: Option<string>): (name: string)
    ensures |name| > |userName| && name[..|userName| + 1] == userName + "_"
  {
    userName + "_" + fileName.GetOr("null")
  }

  function DocumentProcessMessage(message: Message, document: TelegramDocument, transfer: TransferOutcome)
    : (r: ProcessingResult)
    ensures r.messageAcceptedResponse.Some? && r.messageAcceptedResponse.value.chatId == message.chatId
    ensures transfer.TransferFailed? <==> r.stateUpdate.None?
    ensures transfer.TransferFailed? ==> r.messageAcceptedResponse.value.text == DOCUMENT_UPLOAD_ERROR
    ensures transfer.Transferred? ==>
      && r.messageAcceptedResponse.value.text == DOCUMENT_UPLOAD_SUCCESS
      && r.stateUpdate.value == PersistDocument(message.userName, document.fileId, transfer.cloudIdentifier,
                                                document.fileName, DocumentCloudName(message.userName, document.fileName))
  {
    match transfer
    case Transferred(_, cloudIdentifier) =>
      var fileName := DocumentCloudName(message.userName, document.fileName);
      ProcessingResult(
        Some(SendMessage(message.chatId, DOCUMENT_UPLOAD_SUCCESS, NoMarkup)),
        Some(PersistDocument(message.userName, document.fileId, cloudIdentifier, document.fileName, fileName)))
    case TransferFailed =>
      ProcessingResult(Some(SendMessage(message.chatId, DOCUMENT_UPLOAD_ERROR, NoMarkup)), None)
  }

  // ---------------------------------------------------------------------
  // UploadImageUpdateProcessor

  predicate SortedBySizeDesc(s: seq<PhotoSize>)
  {
    forall i, j :: 0 <= i < j < |s| ==> s[i].fileSize >= s[j].fileSize
  }

  /** Place x after every element at least as large: inserting the
      elements of a list in order this way keeps equal sizes in their
      original order, as the stable library sort does. */
  function InsertBySize(sorted: seq<PhotoSize>, x: PhotoSize): (r: seq<PhotoSize>)
    ensures multiset(r) == multiset(sorted) + multiset{x}
  {
    if sorted == [] || sorted[0].fileSize < x.fileSize then [x] + sorted
    else
      assert sorted == [sorted[0]] + sorted[1..];
      [sorted[0]] + InsertBySize(sorted[1..], x)
  }

  lemma {:induction false} InsertKeepsSorted(sorted: seq<PhotoSize>, x: PhotoSize)
    requires SortedBySizeDesc(sorted)
    ensures SortedBySizeDesc(InsertBySize(sorted, x))
  {
    if sorted != [] && sorted[0].fileSize >= x.fileSize {
      var rest := InsertBySize(sorted[1..], x);
      InsertKeepsSorted(sorted[1..], x);
      forall k | 0 <= k < |rest| ensures rest[k].fileSize <= sorted[0].fileSize {
        assert rest[k] in multiset(rest);
        if rest[k] != x {
          assert rest[k] in multiset(sorted[1..]);
          var m :| 0 <= m < |sorted[1..]| && sorted[1..][m] == rest[k];
          assert sorted[m + 1] == rest[k];
        }
      }
    }
  }

  /** thumbnails.sort(comparingInt(getFileSize).reversed()). */
  function SortBySizeDesc(s: seq<PhotoSize>): (r: seq<PhotoSize>)
    ensures multiset(r) == multiset(s)
    ensures |r| == |s|
  {
    if s == [] then []
    else
      assert s == s[..|s| - 1] + [s[|s| - 1]];
      var r := InsertBySize(SortBySizeDesc(s[..|s| - 1]), s[|s| - 1]);
      assert |r| == |multiset(r)|;
      r
  }

  lemma {:induction false} SortBySizeDescSorted(s: seq<PhotoSize>)
    ensures SortedBySizeDesc(SortBySizeDesc(s))
  {
    if s != [] {
      SortBySizeDescSorted(s[..|s| - 1]);
      InsertKeepsSorted(SortBySizeDesc(s[..|s| - 1]), s[|s| - 1]);
    }
  }

  /** The in-place sort: the list afterwards holds the sorted photos. */
  method SortThumbnails(thumbnails: array<PhotoSize>)
    modifies thumbnails
    ensures thumbnails[..] == SortBySizeDesc(old(thumbnails[..]))
  {
    var sorted := SortBySizeDesc(thumbnails[..]);
    forall i | 0 <= i < thumbnails.Length {
      thumbnails[i] := sorted[i];
    }
  }

  function ImageCloudName(userName: string, downloadedPath: string): string
  {
    userName + "_" + downloadedPath
  }

  /** The result once the photos are sorted: the largest is the one
      downloaded and uploaded, the smallest is kept as the thumbnail. */
  function ImageResult(sorted: seq<PhotoSize>, message: Message, transfer: TransferOutcome): (r: ProcessingResult)
    requires sorted != []
    ensures r.messageAcceptedResponse.Some? && r.messageAcceptedResponse.value.chatId == message.chatId
    ensures transfer.TransferFailed? <==> r.stateUpdate.None?
    ensures transfer.TransferFailed? ==> r.messageAcceptedResponse.value.text == DOCUMENT_UPLOAD_ERROR
    ensures transfer.Transferred? ==>
      && r.messageAcceptedResponse.value.text == DOCUMENT_UPLOAD_SUCCESS
      && r.stateUpdate.value == PersistImage(message.userName, sorted[0].fileId, transfer.cloudIdentifier,
                                             ImageCloudName(message.userName, transfer.downloadedPath),
                                             sorted[|sorted| - 1].fileId)
  {
    var biggestImageInfo := sorted[0];
    match transfer
    case Transferred(downloadedPath, cloudIdentifier) =>
      var fileName := ImageCloudName(message.userName, downloadedPath);
      ProcessingResult(
        Some(SendMessage(message.chatId, DOCUMENT_UPLOAD_SUCCESS, NoMarkup)),
        Some(PersistImage(message.userName, biggestImageInfo.fileId, cloudIdentifier, fileName,
                          sorted[|sorted| - 1].fileId)))
    case TransferFailed =>
      ProcessingResult(Some(SendMessage(message.chatId, DOCUMENT_UPLOAD_ERROR, NoMarkup)), None)
  }

  /** processImageMessage: sort the message's photo list in place, then
      build the result from it. */
  method ProcessImageMessage(thumbnails: array<PhotoSize>, message: Message, transfer: TransferOutcome)
    returns (r: ProcessingResult)
    requires thumbnails.Length > 0
    modifies thumbnails
    ensures thumbnails[..] == SortBySizeDesc(old(thumbnails[..]))
    ensures r == ImageResult(thumbnails[..], message, transfer)
  {
    SortThumbnails(thumbnails);
    r := ImageResult(thumbnails[..], message, transfer);
  }

  // ---------------------------------------------------------------------
  // All processors behind their claim guards

  datatype ProcessorKind =
    | CallbackKind
    | CustomKeyboardKind
    | UploadDocumentKind
    | UploadImageKind
    | ManualFinishKind
    | FallbackKind

  /** The order in which the processors are registered. */
  const PROCESSOR_ORDER: seq<ProcessorKind> :=
    [CallbackKind, CustomKeyboardKind, UploadDocumentKind, UploadImageKind, ManualFinishKind, FallbackKind]

  /** The outside world a processor consults: stored callback data and the
      outcome of the download and upload. */
  datatype Environment = Environment(callbackData: map<string, TelegramInlineCallbackData>, transfer: TransferOutcome)

  /** processUpdate of each processor, with the guards of MessageProcessor
      (no message: decline), DocumentUpdateProcessor (no document: decline),
      ImageUpdateProcessor (no photo: decline) and TextUpdateProcessor. */
  function ProcessUpdate(p: ProcessorKind, update: Update, env: Environment): Option<ProcessingResult>
  {
    match p
    case CallbackKind => CallbackProcessUpdate(update, env.callbackData)
    case UploadDocumentKind =>
      if update.message.None? || update.message.value.document.None? then None
      else Some(DocumentProcessMessage(update.message.value, update.message.value.document.value, env.transfer))
    case UploadImageKind =>
      if update.message.None? || update.message.value.photo == [] then None
      else
        var sorted := SortBySizeDesc(update.message.value.photo);
        Some(ImageResult(sorted, update.message.value, env.transfer))
    case CustomKeyboardKind =>
      if update.message.None? then None else TextProcessMessage(CustomKeyboardProcessor, update.message.value)
    case ManualFinishKind =>
      if update.message.None? then None else TextProcessMessage(ManualFinishProcessor, update.message.value)
    case FallbackKind =>
      if update.message.None? then None else TextProcessMessage(FallbackProcessor, update.message.value)
  }
}
