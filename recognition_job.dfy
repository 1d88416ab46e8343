/** The periodic classification job and the trigger that wakes it. While
    active, each tick asks the store for users with unclassified documents
    and sends every such document to its owner with one button per real
    category and a delete button, marking it as asked. A tick that finds
    nobody puts the job to sleep until the trigger fires. The bot's
    outgoing messages are an append-only list; whether a send throws is an
    oracle. */
module RecognitionJob {
  import opened Wrappers
  import opened Documents
  import opened Storage
  import opened TelegramApi
  import opened CallbackCodec

  // ---------------------------------------------------------------------
  // Prompts

  function TypeButton(t: DocumentType, documentId: string, cloudFileId: string): InlineButton
  {
    InlineButton(Text(t), Serialize(RecognizeDocumentCallbackData(Some(t), false, documentId, cloudFileId)))
  }

  function DeleteButton(documentId: string, cloudFileId: string): InlineButton
  {
    InlineButton(DELETE_BUTTON_TEXT, Serialize(RecognizeDocumentCallbackData(None, true, documentId, cloudFileId)))
  }

  /** The single keyboard row of a prompt: one button per real category in
      order, then the delete button. */
  function PromptButtons(documentId: string, cloudFileId: string): (r: seq<InlineButton>)
    ensures |r| == |RealDocuments()| + 1
    ensures forall i :: 0 <= i < |RealDocuments()| ==> r[i] == TypeButton(RealDocuments()[i], documentId, cloudFileId)
    ensures r[|r| - 1] == DeleteButton(documentId, cloudFileId)
  {
    var realTypes := RealDocuments();
    seq(|realTypes|, i requires 0 <= i < |realTypes| => TypeButton(realTypes[i], documentId, cloudFileId))
      + [DeleteButton(documentId, cloudFileId)]
  }

  /** A photo with the image caption when there is a thumbnail, otherwise
      the file with the document caption and the original name (or
      nothing) after a colon. */
  function Prompt(info: UnrecognizedDocumentInfo, buttons: seq<InlineButton>): (a: BotAction)
    ensures info.telegramThumbnailId.Some? <==> a.SendPhoto?
    ensures a.SendPhoto? ==>
      a == SendPhoto(info.chatId, info.telegramThumbnailId.value, RECOGNISE_IMAGE_TEXT, InlineKeyboard([buttons]))
    ensures a.SendDocument? ==>
      a == SendDocument(info.chatId, info.telegramFileId,
                        RECOGNISE_DOCUMENT_TEXT + ":" + info.originalFileName.GetOr(""), InlineKeyboard([buttons]))
  {
    if info.telegramThumbnailId.Some? then
      SendPhoto(info.chatId, info.telegramThumbnailId.value, RECOGNISE_IMAGE_TEXT, InlineKeyboard([buttons]))
    else
      SendDocument(info.chatId, info.telegramFileId,
                   RECOGNISE_DOCUMENT_TEXT + ":" + info.originalFileName.GetOr(""), InlineKeyboard([buttons]))
  }

  function PromptFor(info: UnrecognizedDocumentInfo): BotAction
  {
    Prompt(info, PromptButtons(info.id, info.cloudFileId))
  }

  /** The documents of a user snapshot that still wait for a category. A
      snapshot without a document list throws before anything is sent, and
      the per-user catch makes that a turn with nothing to prompt. */
  function UnrecognizedOf(u: UserInfo): seq<UnrecognizedDocumentInfo>
  {
    if u.documents.None? then [] else InfosOf(UnknownDocuments(u.documents.value), u.chatId)
  }

  /** The store and the outbox after prompting for the given documents in
      order: a send that throws ends the user's turn before the mark, and
      a mark that fails (no record, or no document list) ends it after the
      send. */
  function PromptDocuments(name: string, infos: seq<UnrecognizedDocumentInfo>,
                           users: map<string, UserInfo>, sent: seq<BotAction>,
                           sendOk: UnrecognizedDocumentInfo -> bool, mandatory: seq<DocumentType>)
    : (map<string, UserInfo>, seq<BotAction>)
  {
    if infos == [] || !sendOk(infos[0]) then (users, sent)
    else
      var sentNext := sent + [PromptFor(infos[0])];
      if name !in users || users[name].documents.None? then (users, sentNext)
      else
        PromptDocuments(name, infos[1..],
                        users[name := RetypeEffect(users[name], infos[0].id, UNKNOWN_REQUESTED, mandatory)],
                        sentNext, sendOk, mandatory)
  }

  /** The store and the outbox after processing the user snapshots in
      order; a failure for one user does not affect the next. */
  function ProcessUsers(snapshots: seq<UserInfo>, users: map<string, UserInfo>, sent: seq<BotAction>,
                        sendOk: UnrecognizedDocumentInfo -> bool, mandatory: seq<DocumentType>)
    : (map<string, UserInfo>, seq<BotAction>)
  {
    if snapshots == [] then (users, sent)
    else
      var next := PromptDocuments(snapshots[0].username, UnrecognizedOf(snapshots[0]), users, sent, sendOk, mandatory);
      ProcessUsers(snapshots[1..], next.0, next.1, sendOk, mandatory)
  }

  // ---------------------------------------------------------------------
  // The trigger and the job

  class ImageTypeRecognitionJobTrigger {
    var listener: ImageTypeRecognitionJob?

    constructor ()
      ensures listener == null
    {
      listener := null;
    }

    /** Runs the registered listener once, if there is one. */
    method ScheduleRecognition()
      modifies listener
      ensures listener == old(listener)
      ensures listener != null ==>
        && listener.active
        && listener.sent == old(listener.sent)
        && listener.triggers == old(listener.triggers) + 1
    {
      if listener != null {
        listener.ScheduleRecognition();
      }
    }

    /** Replaces any earlier listener; null unregisters. */
    method AddListener(runnable: ImageTypeRecognitionJob?)
      modifies this
      ensures listener == runnable
    {
      listener := runnable;
    }
  }

  class ImageTypeRecognitionJob {
    var active: bool
    var sent: seq<BotAction>
    const persistentStorage: UserStore
    /** How often the job has been woken by the trigger. */
    ghost var triggers: nat

    /** Starts active and registers itself with the trigger. */
    constructor (recognitionJobTrigger: ImageTypeRecognitionJobTrigger, persistentStorage: UserStore)
      modifies recognitionJobTrigger
      ensures active && sent == [] && triggers == 0
      ensures this.persistentStorage == persistentStorage
      ensures recognitionJobTrigger.listener == this
    {
      active := true;
      sent := [];
      this.persistentStorage := persistentStorage;
      triggers := 0;
      new;
      recognitionJobTrigger.AddListener(this);
    }

    method ScheduleRecognition()
      modifies this
      ensures active && sent == old(sent) && triggers == old(triggers) + 1
    {
      active := true;
      triggers := triggers + 1;
    }

    /** The row of buttons of one prompt. */
    method BuildButtons(info: UnrecognizedDocumentInfo) returns (buttons: seq<InlineButton>)
      ensures buttons == PromptButtons(info.id, info.cloudFileId)
    {
      buttons := [];
      var realTypes := RealDocuments();
      for i := 0 to |realTypes|
        invariant |buttons| == i
        invariant forall k :: 0 <= k < i ==> buttons[k] == TypeButton(realTypes[k], info.id, info.cloudFileId)
      {
        buttons := buttons + [TypeButton(realTypes[i], info.id, info.cloudFileId)];
      }
      buttons := buttons + [DeleteButton(info.id, info.cloudFileId)];
    }

    /** processUserWithUnrecognizedImages on a user snapshot. */
    method ProcessUserWithUnrecognizedImages(userInfo: UserInfo, sendOk: UnrecognizedDocumentInfo -> bool)
      requires persistentStorage.Valid()
      modifies this, persistentStorage
      ensures persistentStorage.Valid()
      ensures active == old(active)
      ensures (persistentStorage.users, sent) ==
        PromptDocuments(userInfo.username, UnrecognizedOf(userInfo), old(persistentStorage.users), old(sent),
                        sendOk, persistentStorage.mandatory)
    {
      var username := userInfo.username;
      var unrecognizedDocumentInfoList := UnrecognizedOf(userInfo);
      for i := 0 to |unrecognizedDocumentInfoList|
        invariant persistentStorage.Valid() && active == old(active)
        invariant PromptDocuments(username, unrecognizedDocumentInfoList, old(persistentStorage.users), old(sent),
                                  sendOk, persistentStorage.mandatory)
               == PromptDocuments(username, unrecognizedDocumentInfoList[i..], persistentStorage.users, sent,
                                  sendOk, persistentStorage.mandatory)
      {
        var info := unrecognizedDocumentInfoList[i];
        assert unrecognizedDocumentInfoList[i..][0] == info;
        assert unrecognizedDocumentInfoList[i..][1..] == unrecognizedDocumentInfoList[i + 1..];
        var buttons := BuildButtons(info);
        if !sendOk(info) {
          return;
        }
        sent := sent + [Prompt(info, buttons)];
        var marked := persistentStorage.MarkDocumentAsNotifiedForRecognition(username, info.id);
        if marked.Failure? {
          return;
        }
      }
    }

    /** One run of the scheduled task. scanOrder is the order of the table
        scan, or None when the scan itself fails; when the query throws the
        job stays as it was. */
    method Tick(scanOrder: Option<seq<string>>, sendOk: UnrecognizedDocumentInfo -> bool)
      requires persistentStorage.Valid()
      requires scanOrder.Some? ==> IsScanOf(persistentStorage.users, scanOrder.value)
      modifies this, persistentStorage
      ensures persistentStorage.Valid()
      ensures !old(active) || scanOrder.None? || ListMissingInScan(old(persistentStorage.users)) ==>
        active == old(active) && sent == old(sent) && persistentStorage.users == old(persistentStorage.users)
      ensures old(active) && scanOrder.Some? && !ListMissingInScan(old(persistentStorage.users)) ==>
        var snapshots := UsersNeedingRecognition(old(persistentStorage.users), scanOrder.value);
        && (active <==> exists n :: n in old(persistentStorage.users) && NeedsRecognition(old(persistentStorage.users)[n]))
        && (persistentStorage.users, sent) ==
             ProcessUsers(snapshots, old(persistentStorage.users), old(sent), sendOk, persistentStorage.mandatory)
    {
      if !active {
        return;
      }
      if scanOrder.None? {
        return;
      }
      var queried := persistentStorage.QueryUsersForImageRecognition(scanOrder.value);
      if queried.None? {
        return;
      }
      var userInfos := queried.value;
      if |userInfos| == 0 {
        forall n | n in persistentStorage.users ensures !NeedsRecognition(persistentStorage.users[n]) {
          assert persistentStorage.users[n] in persistentStorage.users.Values;
        }
        active := false;
      } else {
        active := true;
        assert userInfos[0] in persistentStorage.users.Values;
        for i := 0 to |userInfos|
          invariant persistentStorage.Valid() && active
          invariant ProcessUsers(userInfos, old(persistentStorage.users), old(sent), sendOk, persistentStorage.mandatory)
                 == ProcessUsers(userInfos[i..], persistentStorage.users, sent, sendOk, persistentStorage.mandatory)
        {
          assert userInfos[i..][1..] == userInfos[i + 1..];
          ProcessUserWithUnrecognizedImages(userInfos[i], sendOk);
        }
      }
    }
  }
}
