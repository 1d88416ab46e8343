/** What the processors guarantee, across their guards and results. */
module ProcessorProperties {
  import opened Wrappers
  import opened JavaStrings
  import opened Documents
  import opened Storage
  import opened TelegramApi
  import opened UpdateProcessors

  /** After sorting, the first photo is a largest one and the last a
      smallest one: the upload takes the best resolution and the stored
      thumbnail the lowest. */
  lemma LargestFirstSmallestLast(photos: seq<PhotoSize>)
    requires photos != []
    ensures var sorted := SortBySizeDesc(photos);
      && sorted[0] in photos && sorted[|sorted| - 1] in photos
      && (forall p :: p in photos ==> sorted[|sorted| - 1].fileSize <= p.fileSize <= sorted[0].fileSize)
  {
    var sorted := SortBySizeDesc(photos);
    SortBySizeDescSorted(photos);
    assert sorted[0] in multiset(sorted);
    assert sorted[|sorted| - 1] in multiset(sorted);
    forall p | p in photos ensures sorted[|sorted| - 1].fileSize <= p.fileSize <= sorted[0].fileSize {
      assert p in multiset(photos);
      assert p in multiset(sorted);
      var k :| 0 <= k < |sorted| && sorted[k] == p;
    }
  }

  /** An image upload stores the largest photo's file and the smallest
      photo as thumbnail. */
  lemma ImageUploadPicksLargestAndSmallest(update: Update, env: Environment)
    requires update.message.Some? && update.message.value.photo != []
    requires env.transfer.Transferred?
    ensures var r := ProcessUpdate(UploadImageKind, update, env);
      var photos := update.message.value.photo;
      && r.Some? && r.value.stateUpdate.Some? && r.value.stateUpdate.value.PersistImage?
      && (exists p :: p in photos && p.fileId == r.value.stateUpdate.value.imageFileId &&
            forall q :: q in photos ==> q.fileSize <= p.fileSize)
      && (exists p :: p in photos && p.fileId == r.value.stateUpdate.value.thumbnailId &&
            forall q :: q in photos ==> p.fileSize <= q.fileSize)
  {
    var photos := update.message.value.photo;
    LargestFirstSmallestLast(photos);
    var sorted := SortBySizeDesc(photos);
    assert sorted[0] in photos;
    assert sorted[|sorted| - 1] in photos;
  }

  /** A failed download or upload is answered with the error text and
      leaves nothing to persist. */
  lemma UploadFailureNeverPersists(p: ProcessorKind, update: Update, env: Environment)
    requires p == UploadDocumentKind || p == UploadImageKind
    requires env.transfer.TransferFailed?
    ensures var r := ProcessUpdate(p, update, env);
      r.Some? ==>
        && r.value.stateUpdate.None?
        && r.value.messageAcceptedResponse.Some?
        && r.value.messageAcceptedResponse.value.text == DOCUMENT_UPLOAD_ERROR
  {
  }

  /** The fallback processor is responsible for every text but never
      returns a result. */
  lemma FallbackNeverClaims(update: Update, env: Environment)
    ensures ProcessUpdate(FallbackKind, update, env).None?
    ensures forall text :: IsResponsible(FallbackProcessor, text)
  {
  }

  /** A processor claims only what it handles: a callback query, or a
      message with a document, with photos, or with a text the processor
      is responsible for. */
  lemma ClaimNeedsContent(p: ProcessorKind, update: Update, env: Environment)
    requires ProcessUpdate(p, update, env).Some?
    ensures p == CallbackKind ==> update.callbackQuery.Some? && update.callbackQuery.value.data in env.callbackData
    ensures p != CallbackKind ==> update.message.Some?
    ensures p == UploadDocumentKind ==> update.message.value.document.Some?
    ensures p == UploadImageKind ==> update.message.value.photo != []
    ensures p == CustomKeyboardKind ==>
      update.message.value.text.Some? && StartsWith(update.message.value.text.value, "/keyboard")
    ensures p == ManualFinishKind ==>
      update.message.value.text == Some(ANSWER_NO_ALL_DOCUMENTS_ARE_THERE) ||
      update.message.value.text == Some(ANSWER_YES_DOCUMENT_WILL_BE_SUBMITTED_YET)
  {
  }

  /** The debug keyboard and the finish answers never claim the same
      message. */
  lemma KeyboardAndFinishDisjoint(update: Update, env: Environment)
    ensures !(ProcessUpdate(CustomKeyboardKind, update, env).Some? && ProcessUpdate(ManualFinishKind, update, env).Some?)
  {
    if update.message.Some? && update.message.value.text.Some? {
      var text := update.message.value.text.value;
      if IsResponsible(ManualFinishProcessor, text) {
        assert text[0] != '/';
        assert !StartsWith(text, "/keyboard");
      }
    }
  }

  /** A finish answer always yields a result; only NO carries work. */
  lemma ManualFinishAlwaysAnswers(message: Message)
    requires message.text.Some? && IsResponsible(ManualFinishProcessor, message.text.value)
    ensures var r := TextProcessMessage(ManualFinishProcessor, message);
      && r.Some?
      && r.value.messageAcceptedResponse.None?
      && (message.text.value == ANSWER_NO_ALL_DOCUMENTS_ARE_THERE ==>
            r.value.stateUpdate == Some(ForceFinish(message.userName, message.chatId)))
      && (message.text.value == ANSWER_YES_DOCUMENT_WILL_BE_SUBMITTED_YET ==> r.value.stateUpdate.None?)
  {
  }

  /** Every /keyboard branch answers at once with the image prompt text in
      the message's chat and defers nothing. */
  lemma KeyboardAnswersImmediately(message: Message)
    requires message.text.Some? && StartsWith(message.text.value, "/keyboard")
    ensures var r := TextProcessMessage(CustomKeyboardProcessor, message);
      && r.Some? && r.value.stateUpdate.None?
      && r.value.messageAcceptedResponse.Some?
      && r.value.messageAcceptedResponse.value.chatId == message.chatId
      && r.value.messageAcceptedResponse.value.text == RECOGNISE_IMAGE_TEXT
  {
  }

  /** The reply keyboard has rows of one, one and two buttons and is
      resizable and one-time; the inline one has rows of two, one and one
      buttons with callbacks inn, column2, passport and photo. */
  lemma KeyboardShapes(messageText: string)
    ensures var m := KeyboardMarkup(messageText);
      m.ReplyKeyboard? ==>
        && |m.rows| == 3 && |m.rows[0]| == 1 && |m.rows[1]| == 1 && |m.rows[2]| == 2
        && m.resizeKeyboard && m.oneTimeKeyboard
    ensures var m := KeyboardMarkup(messageText);
      m.InlineKeyboard? ==>
        && |m.inlineRows| == 3 && |m.inlineRows[0]| == 2 && |m.inlineRows[1]| == 1 && |m.inlineRows[2]| == 1
        && [m.inlineRows[0][0].callbackData, m.inlineRows[0][1].callbackData,
            m.inlineRows[1][0].callbackData, m.inlineRows[2][0].callbackData]
           == ["inn", "column2", "passport", "photo"]
  {
  }

  /** "reply" wins over "force" and "inline" when a text has several. */
  lemma {:induction false} ReplyTakesPriority(prefix: string, rest: string)
    ensures KeyboardMarkup(prefix + "reply" + rest).ReplyKeyboard?
  {
    ContainsAppended(prefix, "reply", rest);
  }

  lemma {:induction false} ContainsAppended(prefix: string, part: string, rest: string)
    ensures Contains(prefix + part + rest, part)
  {
    if prefix == [] {
      assert prefix + part + rest == part + rest;
      assert (part + rest)[..|part|] == part;
    } else {
      assert (prefix + part + rest)[1..] == prefix[1..] + part + rest;
      ContainsAppended(prefix[1..], part, rest);
    }
  }

  /** Whatever the new status, the callback answer deletes the prompt and
      sends at most one message, to the same chat, and never a keyboard
      other than the YES/NO question. */
  lemma CallbackResponsesStayInChat(chatId: int, messageId: int, status: FlowStatus)
    ensures forall a :: a in CallbackResponses(chatId, messageId, status) ==>
      (a.DeleteMessage? && a.chatId == chatId && a.messageId == messageId) ||
      (a.Send? && a.message.chatId == chatId &&
        (a.message.markup == NoMarkup || a.message.markup == FINISH_QUESTION_KEYBOARD))
  {
  }
}
