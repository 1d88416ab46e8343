/** The Telegram-side values the processors read and produce: incoming
    updates, outgoing bot actions with their keyboards, the fixed reply
    texts, and the result shape every processor returns. */
module TelegramApi {
  import opened Wrappers
  import opened Documents

  // ---------------------------------------------------------------------
  // Reply texts (TextContents)

  const DOCUMENT_UPLOAD_ERROR: string :=
    "Sorry, we got some error during upload the file, could your please repeat once again?"
  const DOCUMENT_UPLOAD_SUCCESS: string := "Document was successfully uploaded, thank you!"
  const RECOGNISE_DOCUMENT_TEXT: string :=
    "Unfortunately our document recognition system type 'EyeBallsSearch' is pretty busy that time,"
    + "could you please helps us to identify which type of document is it:"
  const RECOGNISE_IMAGE_TEXT: string :=
    "Unfortunately our image recognition system type 'EyeBallsSearch' is pretty busy that time,"
    + "could you please helps us to identify which type of document is it?"
  const ALL_DOCUMENTS_RECEIVED: string :=
    "Thank you for submitting all necessary document! Our HR will connect with you soon."
  const ANSWER_YES_DOCUMENT_WILL_BE_SUBMITTED_YET: string := "Yes, I have some other too."
  const ANSWER_NO_ALL_DOCUMENTS_ARE_THERE: string := "No, it was it, I don't have anything else"
  const ARE_YOU_FINISHED: string :=
    "Thank you once again for submitting documents! Do you have any of the remaining ones?"
  /** The label of the last button of a classification prompt. */
  const DELETE_BUTTON_TEXT: string := "Dunno, delete file"

  // ---------------------------------------------------------------------
  // Incoming

  datatype PhotoSize = PhotoSize(fileId: string, fileSize: int)

  datatype TelegramDocument = TelegramDocument(fileId: string, fileName: Option<string>, mimeType: string)

  /** A message as the processors see it: sender, chat, and whichever of
      text, document and photo sizes it carries (no photo is []). */
  datatype Message = Message(
    messageId: int,
    chatId: int,
    userName: string,
    text: Option<string>,
    document: Option<TelegramDocument>,
    photo: seq<PhotoSize>)

  /** A press on an inline button: its callback data, the message the
      keyboard was attached to, and who pressed it. */
  datatype CallbackQuery = CallbackQuery(data: string, chatId: int, messageId: int, userName: string)

  datatype Update = Update(message: Option<Message>, callbackQuery: Option<CallbackQuery>)

  // ---------------------------------------------------------------------
  // Outgoing

  datatype InlineButton = InlineButton(text: string, callbackData: string)

  datatype Markup =
    | NoMarkup
    | ReplyKeyboard(rows: seq<seq<string>>, resizeKeyboard: bool, oneTimeKeyboard: bool)
    | ForceReply
    | InlineKeyboard(inlineRows: seq<seq<InlineButton>>)
    | KeyboardRemove

  datatype SendMessage = SendMessage(chatId: int, text: string, markup: Markup)

  datatype BotAction =
    | Send(message: SendMessage)
    | DeleteMessage(chatId: int, messageId: int)
    | SendPhoto(photoChatId: int, photo: string, caption: string, photoMarkup: Markup)
    | SendDocument(documentChatId: int, document: string, documentCaption: string, documentMarkup: Markup)

  // ---------------------------------------------------------------------
  // Processing results

  /** A classification answer as stored under a callback id; no category
      means the user asked for the file to be deleted. */
  datatype TelegramInlineCallbackData = TelegramInlineCallbackData(
    id: string, documentType: Option<DocumentType>, documentId: string, cloudId: string)
  {
    predicate IsDelete() { documentType.None? }
  }

  /** The work a processor leaves to be run after its acknowledgement has
      been sent; running it yields the messages to send next. */
  datatype DeferredAction =
    | ResolveCallback(callbackUser: string, callbackChatId: int, promptMessageId: int,
                      data: TelegramInlineCallbackData)
    | ForceFinish(finishUser: string, finishChatId: int)
    | PersistDocument(documentUser: string, documentFileId: string, documentCloudId: string,
                      originalFileName: Option<string>, documentCloudName: string)
    | PersistImage(imageUser: string, imageFileId: string, imageCloudId: string,
                   imageCloudName: string, thumbnailId: string)

  datatype ProcessingResult = ProcessingResult(
    messageAcceptedResponse: Option<SendMessage>,
    stateUpdate: Option<DeferredAction>)

  /** What became of downloading the file from Telegram and uploading it to
      the cloud: the downloaded file's path and the cloud id, or a failure
      of either step. */
  datatype TransferOutcome = Transferred(downloadedPath: string, cloudIdentifier: string) | TransferFailed
}
