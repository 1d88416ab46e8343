/** Running the work a processor deferred: storage writes, cloud calls and
    the recognition trigger, in the order the processors perform them, and
    the messages that result. A step that throws ends the action; what
    happened before it stays done. */
module DeferredActions {
  import opened Wrappers
  import opened Documents
  import opened Storage
  import opened TelegramApi
  import opened Drive
  import opened UpdateProcessors
  import opened RecognitionJob
  import StorageProperties

  /** A request the Drive service has carried out. */
  datatype CloudOperation = Moved(cloudId: string, documentType: DocumentType) | Deleted(cloudId: string)

  /** deleteDocument as written: the retry policy runs over building the
      delete request, which is never executed, so Drive carries out
      nothing whatever the call reports. */
  function DeleteCallAsWritten(executed: seq<CloudOperation>, cloudId: string, attempt: nat -> Attempt<()>)
    : (Result<(), DriveError>, seq<CloudOperation>)
  {
    (RetryFrom(attempt, 0), executed)
  }

  /** deleteDocument with the request executed inside the retried block. */
  function DeleteCall(executed: seq<CloudOperation>, cloudId: string, attempt: nat -> Attempt<()>)
    : (Result<(), DriveError>, seq<CloudOperation>)
  {
    var r := RetryFrom(attempt, 0);
    (r, if r.Success? then executed + [Deleted(cloudId)] else executed)
  }

  /** As written, a delete that reports success leaves the file in place. */
  lemma DeleteAsWrittenNeverDeletes(executed: seq<CloudOperation>, cloudId: string, attempt: nat -> Attempt<()>)
    requires attempt(0) == Done(())
    requires Deleted(cloudId) !in executed
    ensures DeleteCallAsWritten(executed, cloudId, attempt).0 == Success(())
    ensures Deleted(cloudId) !in DeleteCallAsWritten(executed, cloudId, attempt).1
  {
  }

  /** Corrected, the call reports success exactly when Drive deleted the
      file, and a failure leaves Drive untouched. */
  lemma DeleteCallDeletes(executed: seq<CloudOperation>, cloudId: string, attempt: nat -> Attempt<()>)
    ensures var (r, after) := DeleteCall(executed, cloudId, attempt);
      && (r.Success? <==> after == executed + [Deleted(cloudId)])
      && (r.Failure? <==> after == executed)
      && (r.Success? ==> exists j :: 0 <= j < MAX_RETRIES && attempt(j).Done?)
  {
    if RetryFrom(attempt, 0).Success? {
      SuccessComesFromAnAttempt(attempt, 0);
    }
  }

  /** The cloud as the callback's deferred action sees it: every call goes
      through the retry policy; executed lists what Drive carried out. */
  class CloudWrapper {
    var executed: seq<CloudOperation>

    constructor ()
      ensures executed == []
    {
      executed := [];
    }

    /** recognizeDocument: move the file into the category's folder. */
    method RecognizeDocument(cloudId: string, documentType: DocumentType, attempt: nat -> Attempt<()>)
      returns (r: Result<(), DriveError>)
      modifies this
      ensures r == RetryFrom(attempt, 0)
      ensures r.Success? ==> executed == old(executed) + [Moved(cloudId, documentType)]
      ensures r.Failure? ==> executed == old(executed)
    {
      var tries;
      r, tries := DoRetryableVoid(attempt);
      if r.Success? {
        executed := executed + [Moved(cloudId, documentType)];
      }
    }

    /** deleteDocument as the source has it. */
    method DeleteDocumentAsWritten(cloudId: string, attempt: nat -> Attempt<()>) returns (r: Result<(), DriveError>)
      modifies this
      ensures (r, executed) == DeleteCallAsWritten(old(executed), cloudId, attempt)
    {
      var tries;
      r, tries := DoRetryableVoid(attempt);
    }

    /** deleteDocument with the request executed; used by the callback
        action. */
    method DeleteDocument(cloudId: string, attempt: nat -> Attempt<()>) returns (r: Result<(), DriveError>)
      modifies this
      ensures (r, executed) == DeleteCall(old(executed), cloudId, attempt)
    {
      var tries;
      r, tries := DoRetryableVoid(attempt);
      if r.Success? {
        executed := executed + [Deleted(cloudId)];
      }
    }
  }

  datatype DeferredError =
    | CloudFailed(driveError: DriveError)
    | StorageFailed(storeError: StoreError)
    /** Optional.of(null): a document without a file name. */
    | MissingFileName

  /** The callback's deferred action: the cloud call first, then the
      storage write whose returned status picks the messages. The delete
      path uses the corrected delete, which Drive carries out; the source's
      delete builds the request and never executes it. */
  method RunResolveCallback(userName: string, chatId: int, promptMessageId: int, data: TelegramInlineCallbackData,
                            store: UserStore, cloud: CloudWrapper, cloudAttempt: nat -> Attempt<()>)
    returns (r: Result<seq<BotAction>, DeferredError>)
    requires store.Valid()
    modifies store, cloud
    ensures store.Valid()
    ensures RetryFrom(cloudAttempt, 0).Failure? ==>
      && r == Failure(CloudFailed(RetryFrom(cloudAttempt, 0).error))
      && store.users == old(store.users) && cloud.executed == old(cloud.executed)
    ensures RetryFrom(cloudAttempt, 0).Success? && data.IsDelete() ==>
      && cloud.executed == old(cloud.executed) + [Deleted(data.cloudId)]
      && (userName !in old(store.users) ==> r == Failure(StorageFailed(UserNotFound)) && store.users == old(store.users))
      && (userName in old(store.users) && old(store.users)[userName].documents.None? ==>
            r == Failure(StorageFailed(DocumentsMissing)) && store.users == old(store.users))
      && (userName in old(store.users) && old(store.users)[userName].documents.Some? ==>
            var u := DeleteEffect(old(store.users)[userName], data.documentId, store.mandatory);
            store.users == old(store.users)[userName := u] &&
            r == Success(CallbackResponses(chatId, promptMessageId, u.status)))
    ensures RetryFrom(cloudAttempt, 0).Success? && !data.IsDelete() ==>
      var t := data.documentType.value;
      && cloud.executed == old(cloud.executed) + [Moved(data.cloudId, t)]
      && (userName !in old(store.users) ==> r == Failure(StorageFailed(UserNotFound)) && store.users == old(store.users))
      && (userName in old(store.users) && old(store.users)[userName].documents.None? ==>
            r == Failure(StorageFailed(DocumentsMissing)) && store.users == old(store.users))
      && (userName in old(store.users) && old(store.users)[userName].documents.Some? ==>
            var u := RetypeEffect(old(store.users)[userName], data.documentId, t, store.mandatory);
            store.users == old(store.users)[userName := u] &&
            r == Success(CallbackResponses(chatId, promptMessageId, u.status)))
  {
    var newFlowStatus: Result<FlowStatus, StoreError>;
    if data.IsDelete() {
      var deleted := cloud.DeleteDocument(data.cloudId, cloudAttempt);
      if deleted.Failure? {
        return Failure(CloudFailed(deleted.error));
      }
      newFlowStatus := store.DeleteDocument(userName, data.documentId);
    } else {
      var moved := cloud.RecognizeDocument(data.cloudId, data.documentType.value, cloudAttempt);
      if moved.Failure? {
        return Failure(CloudFailed(moved.error));
      }
      newFlowStatus := store.UpdateDocumentType(userName, data.documentId, data.documentType.value);
    }
    if newFlowStatus.Failure? {
      return Failure(StorageFailed(newFlowStatus.error));
    }
    return Success(CallbackResponses(chatId, promptMessageId, newFlowStatus.value));
  }

  /** The NO answer's deferred action: FINISHED whatever the documents,
      and the closing message. */
  method RunForceFinish(userName: string, chatId: int, store: UserStore) returns (r: seq<BotAction>)
    requires store.Valid()
    modifies store
    ensures store.Valid()
    ensures store.GetFlowStatus(userName) == FINISHED
    ensures userName in old(store.users) ==>
      store.users == old(store.users)[userName := old(store.users)[userName].(status := FINISHED)]
    ensures userName !in old(store.users) ==>
      store.users == old(store.users)[userName := UserInfo(userName, FINISHED, None, None, 0, None)]
    ensures r == [Send(SendMessage(chatId, ALL_DOCUMENTS_RECEIVED, NoMarkup))]
  {
    store.UpdateFlowStatus(userName, FINISHED);
    r := [Send(SendMessage(chatId, ALL_DOCUMENTS_RECEIVED, NoMarkup))];
  }

  /** The upload processors' deferred action: save the document, set the
      user to WAITING_DOCUMENT_RECOGNITION whatever the status was, and
      wake the recognition job, in that order. It sends nothing. */
  method RunPersist(userName: string, telegramFileId: string, cloudIdentifier: string,
                    originalFileName: Option<string>, cloudFileName: string, thumbnailId: Option<string>,
                    freshId: string, store: UserStore, trigger: ImageTypeRecognitionJobTrigger)
    returns (r: Result<seq<BotAction>, DeferredError>)
    requires store.Valid()
    modifies store, trigger.listener
    ensures store.Valid()
    ensures trigger.listener == old(trigger.listener)
    ensures userName !in old(store.users) ==>
      && r == Failure(StorageFailed(UserNotFound))
      && store.users == old(store.users)
      && (trigger.listener != null ==> trigger.listener.active == old(trigger.listener.active))
    ensures userName in old(store.users) && old(store.users)[userName].documents.None? ==>
      && r == Failure(StorageFailed(DocumentsMissing))
      && store.users == old(store.users)
      && (trigger.listener != null ==> trigger.listener.active == old(trigger.listener.active))
    ensures userName in old(store.users) && old(store.users)[userName].documents.Some? ==>
      var u := old(store.users)[userName];
      && r == Success([])
      && store.users == old(store.users)[userName := u.(
           documents := Some(u.documents.value + [NewDocument(freshId, telegramFileId, cloudIdentifier, cloudFileName, thumbnailId)]),
           status := WAITING_DOCUMENT_RECOGNITION)]
      && (trigger.listener != null ==> trigger.listener.active)
  {
    var saved := store.SaveDocumentInfo(userName, telegramFileId, cloudIdentifier, originalFileName,
                                        cloudFileName, thumbnailId, freshId);
    if saved.Failure? {
      return Failure(StorageFailed(saved.error));
    }
    store.UpdateFlowStatus(userName, WAITING_DOCUMENT_RECOGNITION);
    trigger.ScheduleRecognition();
    return Success([]);
  }

  /** Any deferred action. */
  method RunDeferred(action: DeferredAction, store: UserStore, cloud: CloudWrapper,
                     trigger: ImageTypeRecognitionJobTrigger, cloudAttempt: nat -> Attempt<()>, freshId: string)
    returns (r: Result<seq<BotAction>, DeferredError>)
    requires store.Valid()
    modifies store, cloud, trigger.listener
    ensures store.Valid()
    ensures action.PersistDocument? && action.originalFileName.None? ==>
      r == Failure(MissingFileName) && store.users == old(store.users)
    ensures action.ForceFinish? ==> store.GetFlowStatus(action.finishUser) == FINISHED
    ensures (action.PersistDocument? || action.PersistImage?) && r.Success? ==> r.value == []
  {
    match action {
      case ResolveCallback(userName, chatId, messageId, data) =>
        r := RunResolveCallback(userName, chatId, messageId, data, store, cloud, cloudAttempt);
      case ForceFinish(userName, chatId) =>
        var messages := RunForceFinish(userName, chatId, store);
        r := Success(messages);
      case PersistDocument(userName, fileId, cloudId, originalFileName, cloudName) =>
        if originalFileName.None? {
          return Failure(MissingFileName);
        }
        r := RunPersist(userName, fileId, cloudId, originalFileName, cloudName, None, freshId, store, trigger);
      case PersistImage(userName, fileId, cloudId, cloudName, thumbnailId) =>
        r := RunPersist(userName, fileId, cloudId, None, cloudName, Some(thumbnailId), freshId, store, trigger);
    }
  }

  // -----------------------------------------------------------------------
  // The flow end to end

  /** Answering the last missing category finishes the flow: the user is
      thanked after the prompt is deleted. */
  lemma LastAnswerFinishes(u: UserInfo, id: string, t: DocumentType, mandatory: seq<DocumentType>,
                           chatId: int, messageId: int)
    requires IsReal(t) && u.documents.Some?
    requires forall s :: IsReal(s) && s != t ==> exists d :: d in u.documents.value && d.id != id && d.documentType == s
    requires exists d :: d in u.documents.value && d.id == id
    ensures CallbackResponses(chatId, messageId, RetypeEffect(u, id, t, mandatory).status)
         == [DeleteMessage(chatId, messageId), Send(SendMessage(chatId, ALL_DOCUMENTS_RECEIVED, NoMarkup))]
  {
    StorageProperties.RetypeAllFinishes(u, id, t, mandatory);
  }
}
