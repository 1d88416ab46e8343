# Onboarding document bot — a verified model

The bot collects a fixed set of personal documents from new employees over
Telegram. A user uploads files or photos; each upload is copied to a Google
Drive folder and recorded in the user's record as a document of unknown
category. A periodic recognition job sends every unclassified document back
to its owner with one button per category and a delete button. The answer
moves the file into the category's Drive folder, or asks Drive to delete it,
and recomputes the user's flow status. (As written, the delete request is
built but never sent; see "## Findings".) Once all eight real categories are
present the flow is FINISHED. Once the mandatory ones are in, the user is
asked whether more will follow.

This project models the core of that workflow in Dafny:

- `document_type.dfy` (`Documents`): the ten document categories, their
  names, labels and Drive subfolders, and `realDocuments()`.
- `java_strings.dfy` (`JavaStrings`): `String.split` on one separator
  character, with trailing empty fields dropped. Also joining,
  `startsWith` and `contains`.
- `callback_codec.dfy` (`CallbackCodec`): the `_`-separated callback
  format of a classification button, its parser, the parser's defect, and
  a corrected parser.
- `user_store.dfy` (`Storage`): the per-user record store.
  - The status rule `calculateUserStatus` as a function, and as the loop
    method proved equal to it.
  - The list edits: append, remove by id, retype by id, mark as asked.
  - The two queries.
  - A `UserStore` class whose methods update a map from username to
    record.
- `user_store_lemmas.dfy` (`StorageProperties`): what the status rule and
  the edits guarantee.
- `user_aware_executor.dfy` (`Executors`): sticky round-robin assignment
  of users to worker lanes, including the quirky counter reset.
- `drive_retry.dfy` (`Drive`): the bounded retry policy of every Drive
  call, and the join of a file's previous parent folders.
- `telegram_api.dfy` (`TelegramApi`): the messages that come in and the
  actions that go out, processing results, deferred actions and the text
  constants.
- `update_processors.dfy` (`UpdateProcessors`): every update processor's
  claim guards and results, including the in-place photo sort.
- `processor_properties.dfy` (`ProcessorProperties`): properties of the
  processors across their guards.
- `recognition_job.dfy` (`RecognitionJob`): the recognition job as a
  class with an `active` flag and an outbox, its prompts, and the
  single-slot trigger that wakes it.
- `recognition_job_properties.dfy` (`RecognitionJobProperties`): what a
  prompt offers and what a tick leaves behind.
- `deferred_actions.dfy` (`DeferredActions`): running a processor's
  deferred work against the store, the Drive wrapper and the trigger, in
  the source's order.

Outside effects are parameters:
- the random document id (`freshId`);
- the outcome of a download and upload (`TransferOutcome`);
- the outcome of each Drive attempt (`attempt: nat -> Attempt<T>`);
- whether a Telegram send throws (`sendOk`);
- the table scan's order of usernames, or `None` when the scan throws
  (`scanOrder`). A given order must list every stored username exactly
  once.

The database mapper is a map from username to record. A record's
document list is optional: a record written by `updateFlowStatus` for a
user the table did not hold has none, and the list operations on such a
record fail as the source's null dereference does. The callback-data
table is a map from callback id to `TelegramInlineCallbackData`.
Exceptions a caller catches become `Result`/`Option` values.

## Model

| member | source | states |
|---|---|---|
| Documents.ValueOf | src/main/java/de/avpod/telegrambot/DocumentType.java:11-21 | Enum.valueOf: a result always names its argument, and every constant's name is accepted; anything else is None (Java throws) |
| Documents.RealDocuments | src/main/java/de/avpod/telegrambot/DocumentType.java:26-37 | exactly eight categories, each once, which are precisely those other than UNKNOWN and UNKNOWN_REQUESTED |
| Documents.RealDocumentsOrder | src/main/java/de/avpod/telegrambot/DocumentType.java:27-36 | the order is PASSPORT, WORK_BOOK, DIPLOMA, INN, SNILS, FORM_182, CARD_DATA, MILITARY_ID |
| Documents.NameIsInjective | src/main/java/de/avpod/telegrambot/DocumentType.java:12-21 | two constants have the same name only if they are the same constant |
| Documents.ValueOfName | src/main/java/de/avpod/telegrambot/DocumentType.java:12-21 | valueOf(name()) gives the constant back |
| Documents.SubfolderNamesDistinct | src/main/java/de/avpod/telegrambot/DocumentType.java:12-21 | the ten subfolder names are pairwise distinct |
| Documents.NamesWithSeparator | src/main/java/de/avpod/telegrambot/DocumentType.java:13-21 | a name contains '_' exactly for UNKNOWN_REQUESTED, WORK_BOOK, FORM_182, CARD_DATA and MILITARY_ID |
| JavaStrings.SplitAll | src/main/java/de/avpod/telegrambot/RecognizeDocumentCallbackData.java:26 | every field between separators, empty ones included; at least one field |
| JavaStrings.JavaSplit | src/main/java/de/avpod/telegrambot/RecognizeDocumentCallbackData.java:26 | `String.split` on one character: the whole string when the separator is absent, otherwise the fields with trailing empty ones dropped (properties in the lemmas below) |
| JavaStrings.DropTrailingEmpty | src/main/java/de/avpod/telegrambot/RecognizeDocumentCallbackData.java:26 | split keeps a prefix of the fields, ending in a non-empty field, and drops only empty ones |
| JavaStrings.SplitAllNoSeparator | src/main/java/de/avpod/telegrambot/RecognizeDocumentCallbackData.java:26 | a string without the separator splits into itself |
| JavaStrings.SplitAllConcat | src/main/java/de/avpod/telegrambot/RecognizeDocumentCallbackData.java:26 | a separator ends one field and starts the next: the fields of a+sep+b are those of a followed by those of b |
| JavaStrings.JoinSplitAll | src/main/java/de/avpod/telegrambot/RecognizeDocumentCallbackData.java:26 | joining the fields of a string with the separator gives the string back |
| JavaStrings.SplitAllJoin | src/main/java/de/avpod/telegrambot/google/GoogleDriveWrapper.java:53-58 | splitting a join gives back the parts when no part holds the separator |
| JavaStrings.JavaSplitHead | src/main/java/de/avpod/telegrambot/RecognizeDocumentCallbackData.java:26-27 | the first field of split is the non-empty text before the first separator |
| JavaStrings.JoinThree | src/main/java/de/avpod/telegrambot/RecognizeDocumentCallbackData.java:16-22 | joining three fields puts one separator between each pair |
| CallbackCodec.Head | src/main/java/de/avpod/telegrambot/RecognizeDocumentCallbackData.java:16-22 | the first field written: "delete" for a delete request, otherwise the type name |
| CallbackCodec.Serialize | src/main/java/de/avpod/telegrambot/RecognizeDocumentCallbackData.java:16-22 | serialize(): head, document id and cloud id joined with '_'; what this means is stated by FieldsOfSerialize and the round-trip lemmas |
| CallbackCodec.FromParts | src/main/java/de/avpod/telegrambot/RecognizeDocumentCallbackData.java:27-40 | the parser after the split: "delete" gives a delete with no type, a constant name gives that type, fewer than three fields or an unknown name give null |
| CallbackCodec.Deserialize | src/main/java/de/avpod/telegrambot/RecognizeDocumentCallbackData.java:24-40 | deserialize(): split on '_', then FromParts; properties in DeserializeSerialize and the defect lemmas |
| CallbackCodec.FieldsOfSerialize | src/main/java/de/avpod/telegrambot/RecognizeDocumentCallbackData.java:16-22 | the serialized form is the head ("delete" or the type name) followed by the two ids as separate fields |
| CallbackCodec.DeserializeSerialize | src/main/java/de/avpod/telegrambot/RecognizeDocumentCallbackData.java:16-36 | round trip: with ids free of '_', a non-empty cloud id, and a delete with null type or a type name without '_', deserialize(serialize(x)) == x |
| CallbackCodec.SerializeWithSeparatorInName | src/main/java/de/avpod/telegrambot/RecognizeDocumentCallbackData.java:20-36 | a non-delete value whose type name contains '_' never survives the round trip, whatever its ids |
| CallbackCodec.FirstWord | src/main/java/de/avpod/telegrambot/DocumentType.java:13-21 | each name with '_' splits into a first word and a rest; only UNKNOWN's first word is itself a constant name |
| CallbackCodec.RealTypeWithSeparatorIsLost | src/main/java/de/avpod/telegrambot/RecognizeDocumentCallbackData.java:24-40 | for WORK_BOOK, FORM_182, CARD_DATA and MILITARY_ID, deserialize(serialize(x)) is null |
| CallbackCodec.UnknownRequestedMisread | src/main/java/de/avpod/telegrambot/RecognizeDocumentCallbackData.java:24-36 | UNKNOWN_REQUESTED is read back as UNKNOWN with document id "REQUESTED" and the document id in place of the cloud id |
| CallbackCodec.TooFewFields | src/main/java/de/avpod/telegrambot/RecognizeDocumentCallbackData.java:24-40 | fewer than three fields after split gives null, not an exception |
| CallbackCodec.TrailingEmptyFieldDropped | src/main/java/de/avpod/telegrambot/RecognizeDocumentCallbackData.java:26-31 | "delete_a_" loses its empty last field to split and deserializes to null |
| CallbackCodec.ExtraFieldsIgnored | src/main/java/de/avpod/telegrambot/RecognizeDocumentCallbackData.java:26-35 | fields after the third do not affect the result |
| CallbackCodec.DeserializeFromEnd | src/main/java/de/avpod/telegrambot/RecognizeDocumentCallbackData.java:24-40 | corrected parser: a result is a delete exactly when it has no type |
| CallbackCodec.LastTwoFields | src/main/java/de/avpod/telegrambot/RecognizeDocumentCallbackData.java:16-22 | the serialized form ends with the two ids as separate fields, and the fields before them join back into the head |
| CallbackCodec.NameIsNotDelete | src/main/java/de/avpod/telegrambot/DocumentType.java:12-21 | no constant is named "delete", so a head is a delete marker or a type name, never both |
| CallbackCodec.DeserializeFromEndSerialize | src/main/java/de/avpod/telegrambot/RecognizeDocumentCallbackData.java:16-36 | corrected round trip for every category, the ones with '_' included, and for an empty cloud id |
| Storage.PresenceOf | src/main/java/de/avpod/telegrambot/aws/DynamoDBWrapper.java:166-172 | the presence map has exactly the real categories as keys, each true iff some document has that category |
| Storage.StatusOf | src/main/java/de/avpod/telegrambot/aws/DynamoDBWrapper.java:163-201 | the status rule: FINISHED with every real category, else waiting for recognition while a document is UNKNOWN or UNKNOWN_REQUESTED, else MANDATORY_DOCUMENTS_SUBMITTED or WAITING_FILES; proved equal to CalculateUserStatus and characterised by the StorageProperties lemmas |
| Storage.CalculateUserStatus | src/main/java/de/avpod/telegrambot/aws/DynamoDBWrapper.java:163-201 | the loops and folds compute exactly the status rule StatusOf |
| Storage.RemoveById | src/main/java/de/avpod/telegrambot/aws/DynamoDBWrapper.java:148 | removeIf: exactly the documents without the id remain; the list is unchanged iff no document has the id |
| Storage.RetypeById | src/main/java/de/avpod/telegrambot/aws/DynamoDBWrapper.java:206-209 | same length; every document with the id gets the new category, every other document is unchanged |
| Storage.UnknownDocuments | src/main/java/de/avpod/telegrambot/aws/DynamoDBWrapper.java:118-120 | exactly the UNKNOWN documents (UNKNOWN_REQUESTED ones excluded) |
| Storage.InfosOf | src/main/java/de/avpod/telegrambot/aws/DynamoDBWrapper.java:121-128 | one info per document, position by position, carrying the user's chat id |
| Storage.NewDocument | src/main/java/de/avpod/telegrambot/aws/DynamoDBWrapper.java:47-54 | the appended document: UNKNOWN, the fresh id, no original filename |
| Storage.DeleteEffect | src/main/java/de/avpod/telegrambot/aws/DynamoDBWrapper.java:145-156 | the record deleteDocument saves; its properties are DeleteEffectProperties |
| Storage.RetypeEffect | src/main/java/de/avpod/telegrambot/aws/DynamoDBWrapper.java:203-214 | the record doUpdateDocumentType saves; its properties are RetypeEffectProperties |
| Storage.PassesStatusFilter | src/main/java/de/avpod/telegrambot/aws/DynamoDBWrapper.java:97-103 | the scan's filter expression: status neither NEW nor FINISHED |
| Storage.NeedsRecognition | src/main/java/de/avpod/telegrambot/aws/DynamoDBWrapper.java:101-111 | the scan filter and the anyMatch over a present document list |
| Storage.IsScanOf | src/main/java/de/avpod/telegrambot/aws/DynamoDBWrapper.java:105 | a full table scan: every stored username once, and nothing else |
| Storage.ListMissingInScan | src/main/java/de/avpod/telegrambot/aws/DynamoDBWrapper.java:107-111 | a record that passes the status filter has no document list, so the anyMatch throws |
| Storage.UsersNeedingRecognition | src/main/java/de/avpod/telegrambot/aws/DynamoDBWrapper.java:95-112 | a scanned user is returned iff its status is neither NEW nor FINISHED and it has an UNKNOWN document |
| Storage.UsersNeedingRecognitionDistinct | src/main/java/de/avpod/telegrambot/aws/DynamoDBWrapper.java:105-111 | over a scan without repeats, no user is returned twice |
| Storage.UserStore.GetFlowStatus | src/main/java/de/avpod/telegrambot/aws/DynamoDBWrapper.java:24-32 | NEW for an absent user, the stored status otherwise |
| Storage.UserStore.InsertUser | src/main/java/de/avpod/telegrambot/aws/DynamoDBWrapper.java:66-81 | the record holds the given status and fields and no documents; other records unchanged |
| Storage.UserStore.UpdateFlowStatus | src/main/java/de/avpod/telegrambot/aws/DynamoDBWrapper.java:84-92 | only the status changes; an absent user gets a record holding just name and status, with chat id 0 and no document list |
| Storage.UserStore.SaveDocumentInfo | src/main/java/de/avpod/telegrambot/aws/DynamoDBWrapper.java:35-63 | absent user or no document list: failure and nothing written; otherwise one UNKNOWN document with the fresh id appended at the end, the original filename discarded, status unchanged |
| Storage.UserStore.DeleteDocument | src/main/java/de/avpod/telegrambot/aws/DynamoDBWrapper.java:145-156 | absent user or no document list: failure and nothing written; no document with the id: nothing written and the stored status returned; otherwise those documents removed and the recomputed status stored and returned |
| Storage.UserStore.UpdateDocumentType | src/main/java/de/avpod/telegrambot/aws/DynamoDBWrapper.java:203-214 | absent user or no document list: failure and nothing written; otherwise the matching documents retyped, the status recomputed, stored and returned |
| Storage.UserStore.MarkDocumentAsNotifiedForRecognition | src/main/java/de/avpod/telegrambot/aws/DynamoDBWrapper.java:133-136 | a retype to UNKNOWN_REQUESTED |
| Storage.UserStore.QueryUsersForImageRecognition | src/main/java/de/avpod/telegrambot/aws/DynamoDBWrapper.java:95-112 | over a full scan: throws iff a record passing the status filter has no document list; otherwise a user is returned iff it is stored and needs recognition, and none twice |
| Storage.UserStore.QueryUnrecognizedDocuments | src/main/java/de/avpod/telegrambot/aws/DynamoDBWrapper.java:115-130 | absent user or no document list fails; otherwise one info per UNKNOWN document, each built from such a document with the user's chat id |
| StorageProperties.FinishedIffAllReal | src/main/java/de/avpod/telegrambot/aws/DynamoDBWrapper.java:166-178 | FINISHED exactly when every real category occurs, whatever UNKNOWN documents there are |
| StorageProperties.StatusNeverNew | src/main/java/de/avpod/telegrambot/aws/DynamoDBWrapper.java:175-200 | the rule never yields NEW |
| StorageProperties.UnrecognizedMeansWaiting | src/main/java/de/avpod/telegrambot/aws/DynamoDBWrapper.java:179-199 | with an UNKNOWN or UNKNOWN_REQUESTED document the status is FINISHED or WAITING_DOCUMENT_RECOGNITION |
| StorageProperties.StatusDependsOnCategoriesOnly | src/main/java/de/avpod/telegrambot/aws/DynamoDBWrapper.java:166-194 | two lists with the same categories have the same status |
| StorageProperties.StatusPermutationInvariant | src/main/java/de/avpod/telegrambot/aws/DynamoDBWrapper.java:166-194 | reordering the documents leaves the status unchanged |
| StorageProperties.StatusIgnoresDuplicates | src/main/java/de/avpod/telegrambot/aws/DynamoDBWrapper.java:170-172 | another document of a present category leaves the status unchanged |
| StorageProperties.StatusOfNothing | src/main/java/de/avpod/telegrambot/aws/DynamoDBWrapper.java:185-193 | no documents: WAITING_FILES with a mandatory category, MANDATORY_DOCUMENTS_SUBMITTED without |
| StorageProperties.SavedDocumentAwaitsRecognition | src/main/java/de/avpod/telegrambot/aws/DynamoDBWrapper.java:47-55 | after a save the rule gives WAITING_DOCUMENT_RECOGNITION or FINISHED |
| StorageProperties.MarkedStatus | src/main/java/de/avpod/telegrambot/aws/DynamoDBWrapper.java:133-136 | marking an existing document leaves the user in FINISHED or WAITING_DOCUMENT_RECOGNITION |
| StorageProperties.DeleteEffectProperties | src/main/java/de/avpod/telegrambot/aws/DynamoDBWrapper.java:145-156 | no document with the id survives, all others do, an absent id changes nothing, name and chat kept |
| StorageProperties.RetypeEffectProperties | src/main/java/de/avpod/telegrambot/aws/DynamoDBWrapper.java:203-214 | only the matching documents change, and only their category; status is the rule on the result |
| StorageProperties.RetypeUnknownIdRecomputes | src/main/java/de/avpod/telegrambot/aws/DynamoDBWrapper.java:203-214 | an id nobody has still recomputes and stores the status |
| StorageProperties.RetypeAllFinishes | src/main/java/de/avpod/telegrambot/aws/DynamoDBWrapper.java:203-214 | answering the last missing real category finishes the flow |
| StorageProperties.QueriedUserHasUnrecognized | src/main/java/de/avpod/telegrambot/aws/DynamoDBWrapper.java:95-130 | a user the recognition query returns has an UNKNOWN document to report |
| StorageProperties.UnknownDocumentsAppend | src/main/java/de/avpod/telegrambot/aws/DynamoDBWrapper.java:118-120 | the filter keeps list order: filtering a concatenation concatenates the filtered parts |
| StorageProperties.SavedDocumentQueuedLast | src/main/java/de/avpod/telegrambot/aws/DynamoDBWrapper.java:47-55 | a saved document is reported after every document already waiting |
| Executors.CounterAfter | src/main/java/de/avpod/telegrambot/UserAwareExecutor.java:31-35 | the counter never exceeds the lane count |
| Executors.RoundRobinLane | src/main/java/de/avpod/telegrambot/UserAwareExecutor.java:31-37 | an assigned lane is in range, and is the counter's value or lane 0 |
| Executors.UserAwareExecutor.constructor | src/main/java/de/avpod/telegrambot/UserAwareExecutor.java:19-26 | max(threadsCount, 0) lanes, no assignments, counter at 0 |
| Executors.UserAwareExecutor.GetExecutor | src/main/java/de/avpod/telegrambot/UserAwareExecutor.java:28-39 | a pinned user keeps its lane and the counter does not move; a new user advances the counter and is pinned to the round-robin lane; with no lanes it fails and nothing is pinned |
| Executors.UserAwareExecutor.CleanupForUser | src/main/java/de/avpod/telegrambot/UserAwareExecutor.java:41-44 | only that user's assignment is removed; the counter is untouched |
| Executors.CounterFirstRound | src/main/java/de/avpod/telegrambot/UserAwareExecutor.java:31-35 | during the first round the counter counts the new users |
| Executors.FirstRoundIsInOrder | src/main/java/de/avpod/telegrambot/UserAwareExecutor.java:31-37 | the first n new users get lanes 0, 1, ..., n-1 |
| Executors.CounterPeriod | src/main/java/de/avpod/telegrambot/UserAwareExecutor.java:31-35 | the counter repeats every n+1 new users |
| Executors.RoundRobinPeriod | src/main/java/de/avpod/telegrambot/UserAwareExecutor.java:31-37 | the lane sequence repeats every n+1 new users |
| Executors.CounterAdvance | src/main/java/de/avpod/telegrambot/UserAwareExecutor.java:31-35 | from any point the counter runs cyclically through 0..n |
| Executors.EveryLaneServed | src/main/java/de/avpod/telegrambot/UserAwareExecutor.java:31-37 | any n+1 consecutive new users cover every lane |
| Executors.ResetRepeatsLaneZero | src/main/java/de/avpod/telegrambot/UserAwareExecutor.java:32-35 | at the end of every round lane 0 is handed out twice in a row (0..n-1, 0, 0, 1, ...) |
| Executors.RoundEnd | src/main/java/de/avpod/telegrambot/UserAwareExecutor.java:31-35 | the counter reaches n at the end of every round |
| Drive.DoRetryable | src/main/java/de/avpod/telegrambot/google/GoogleDriveWrapper.java:90-103 | the loop yields the retry policy's outcome after between 1 and MAX_RETRIES attempts |
| Drive.DoRetryableVoid | src/main/java/de/avpod/telegrambot/google/GoogleDriveWrapper.java:83-88 | the void overload has the same policy |
| Drive.RetryFrom | src/main/java/de/avpod/telegrambot/google/GoogleDriveWrapper.java:90-103 | the retry policy from attempt i on: a socket failure moves on, any other outcome decides, and after MAX_RETRIES the retries are exceeded; properties in the lemmas below |
| Drive.TriesFrom | src/main/java/de/avpod/telegrambot/google/GoogleDriveWrapper.java:90-103 | how many attempts the policy makes from attempt i on |
| Drive.TriesBounded | src/main/java/de/avpod/telegrambot/google/GoogleDriveWrapper.java:91 | at most MAX_RETRIES - i attempts from attempt i on, and at least one |
| Drive.FirstNonSocketOutcomeDecides | src/main/java/de/avpod/telegrambot/google/GoogleDriveWrapper.java:91-99 | the first attempt without a socket error decides: its value is returned, or its error without another try |
| Drive.SocketPrefix | src/main/java/de/avpod/telegrambot/google/GoogleDriveWrapper.java:94-95 | socket failures only move on to the next attempt |
| Drive.RetriesExceededIff | src/main/java/de/avpod/telegrambot/google/GoogleDriveWrapper.java:91-102 | "Retries exceeded" exactly when all five attempts fail on a socket |
| Drive.FirstNonSocket | src/main/java/de/avpod/telegrambot/google/GoogleDriveWrapper.java:91-99 | if some attempt is not a socket failure, there is a first such attempt |
| Drive.SuccessComesFromAnAttempt | src/main/java/de/avpod/telegrambot/google/GoogleDriveWrapper.java:92-93 | a success carries the value of an attempt that succeeded |
| Drive.JoinParents | src/main/java/de/avpod/telegrambot/google/GoogleDriveWrapper.java:53-58 | no parents: deleteCharAt(-1) fails; otherwise the parents joined with ',' and no trailing comma |
| Drive.TerminatedJoin | src/main/java/de/avpod/telegrambot/google/GoogleDriveWrapper.java:53-58 | the builder holds the join plus one ',' before the last character is deleted |
| Drive.JoinSnoc | src/main/java/de/avpod/telegrambot/google/GoogleDriveWrapper.java:54-57 | appending a parent appends ',' and the parent to the join |
| Drive.JoinedParentsSplitBack | src/main/java/de/avpod/telegrambot/google/GoogleDriveWrapper.java:53-67 | the removed-parents string names exactly the previous parents when no id holds ',' |
| UpdateProcessors.CallbackProcessUpdate | src/main/java/de/avpod/telegrambot/telegram/CallbackUpdateProcessor.java:29-45 | claims iff the update has a callback whose id has stored data; no acknowledgement, the resolution deferred |
| UpdateProcessors.CallbackResponses | src/main/java/de/avpod/telegrambot/telegram/CallbackUpdateProcessor.java:64-97 | always deletes the prompt first; FINISHED adds the thanks, MANDATORY_DOCUMENTS_SUBMITTED the YES/NO question, other statuses nothing |
| UpdateProcessors.KeyboardMarkup | src/main/java/de/avpod/telegrambot/telegram/CustomKeybardTextUpdateProcessor.java:39-84 | "reply" before "force" before "inline"; keyboard removal iff none occurs |
| UpdateProcessors.ProcessTextMessage | src/main/java/de/avpod/telegrambot/telegram/ManualFinishTextUpdateProcessor.java:28-57 | fallback never answers; keyboard answers at once; manual finish never answers at once and defers work only for NO |
| UpdateProcessors.TextProcessMessage | src/main/java/de/avpod/telegrambot/telegram/TextUpdateProcessor.java:12-20 | no text or not responsible: declined; otherwise the processor's own result |
| UpdateProcessors.IsResponsible | src/main/java/de/avpod/telegrambot/telegram/ManualFinishTextUpdateProcessor.java:22-25 | manual finish claims exactly the YES and NO answers, the keyboard processor texts starting with "/keyboard" (CustomKeybardTextUpdateProcessor.java:25-27), and the fallback every text (FallbackTextUpdateProcessor.java:16-18) |
| UpdateProcessors.ProcessUpdate | src/main/java/de/avpod/telegrambot/telegram/MessageProcessor.java:12-16 | each processor's processUpdate behind the guards of MessageProcessor, DocumentUpdateProcessor.java:13-16, ImageUpdateProcessor.java:14-17 and TextUpdateProcessor; properties in ProcessorProperties |
| UpdateProcessors.DocumentCloudName | src/main/java/de/avpod/telegrambot/telegram/UploadDocumentUpdateProcessor.java:38 | the cloud name starts with the username and '_' |
| UpdateProcessors.DocumentProcessMessage | src/main/java/de/avpod/telegrambot/telegram/UploadDocumentUpdateProcessor.java:35-66 | always an immediate answer in the chat; failure: error text and nothing deferred; success: success text and a deferred save of the file |
| UpdateProcessors.InsertBySize | src/main/java/de/avpod/telegrambot/telegram/UploadImageUpdateProcessor.java:39 | insertion adds exactly one element |
| UpdateProcessors.InsertKeepsSorted | src/main/java/de/avpod/telegrambot/telegram/UploadImageUpdateProcessor.java:39 | insertion keeps the list sorted by size, descending |
| UpdateProcessors.SortBySizeDesc | src/main/java/de/avpod/telegrambot/telegram/UploadImageUpdateProcessor.java:39 | the sort is a permutation |
| UpdateProcessors.SortBySizeDescSorted | src/main/java/de/avpod/telegrambot/telegram/UploadImageUpdateProcessor.java:39 | the sort's result is ordered by size, largest first |
| UpdateProcessors.SortThumbnails | src/main/java/de/avpod/telegrambot/telegram/UploadImageUpdateProcessor.java:39 | the array is sorted in place |
| UpdateProcessors.ImageResult | src/main/java/de/avpod/telegrambot/telegram/UploadImageUpdateProcessor.java:40-73 | always an immediate answer in the chat; failure: nothing deferred; success: the first photo saved, the last as thumbnail |
| UpdateProcessors.ProcessImageMessage | src/main/java/de/avpod/telegrambot/telegram/UploadImageUpdateProcessor.java:37-74 | sorts the photo list in place, then answers from the sorted list |
| ProcessorProperties.LargestFirstSmallestLast | src/main/java/de/avpod/telegrambot/telegram/UploadImageUpdateProcessor.java:39-59 | after the sort the first photo is a largest and the last a smallest |
| ProcessorProperties.ImageUploadPicksLargestAndSmallest | src/main/java/de/avpod/telegrambot/telegram/UploadImageUpdateProcessor.java:39-65 | an image upload saves a largest photo's file and a smallest photo's id as thumbnail |
| ProcessorProperties.UploadFailureNeverPersists | src/main/java/de/avpod/telegrambot/telegram/UploadImageUpdateProcessor.java:67-72 | a failed transfer is answered with the error text and defers nothing |
| ProcessorProperties.FallbackNeverClaims | src/main/java/de/avpod/telegrambot/telegram/FallbackTextUpdateProcessor.java:16-27 | responsible for every text, never returns a result |
| ProcessorProperties.ClaimNeedsContent | src/main/java/de/avpod/telegrambot/telegram/MessageProcessor.java:12-16 | a claimed update has what the processor handles: stored callback data, a document, photos or a text it is responsible for |
| ProcessorProperties.KeyboardAndFinishDisjoint | src/main/java/de/avpod/telegrambot/telegram/CustomKeybardTextUpdateProcessor.java:25-27 | the keyboard and manual-finish processors never both claim a message |
| ProcessorProperties.ManualFinishAlwaysAnswers | src/main/java/de/avpod/telegrambot/telegram/ManualFinishTextUpdateProcessor.java:28-57 | YES and NO always give a result; NO defers the forced finish, YES defers nothing |
| ProcessorProperties.KeyboardAnswersImmediately | src/main/java/de/avpod/telegrambot/telegram/CustomKeybardTextUpdateProcessor.java:38-87 | every /keyboard branch answers at once in the chat with the image prompt text and defers nothing |
| ProcessorProperties.KeyboardShapes | src/main/java/de/avpod/telegrambot/telegram/CustomKeybardTextUpdateProcessor.java:40-77 | reply rows of 1, 1, 2 buttons, resizable and one-time; inline rows of 2, 1, 1 with callbacks inn, column2, passport, photo |
| ProcessorProperties.ReplyTakesPriority | src/main/java/de/avpod/telegrambot/telegram/CustomKeybardTextUpdateProcessor.java:39-62 | a text containing "reply" gets the reply keyboard whatever else it contains |
| ProcessorProperties.ContainsAppended | src/main/java/de/avpod/telegrambot/telegram/CustomKeybardTextUpdateProcessor.java:39 | a text built around a word contains that word |
| ProcessorProperties.CallbackResponsesStayInChat | src/main/java/de/avpod/telegrambot/telegram/CallbackUpdateProcessor.java:64-97 | every response goes to the callback's chat, and the only keyboard is the YES/NO question |
| RecognitionJob.PromptButtons | src/main/java/de/avpod/telegrambot/telegram/ImageTypeRecognitionJob.java:73-96 | one button per real category in order, then the delete button |
| RecognitionJob.Prompt | src/main/java/de/avpod/telegrambot/telegram/ImageTypeRecognitionJob.java:98-121 | a photo with the image caption iff there is a thumbnail, else the file with the document caption, ':' and the original name or "" |
| RecognitionJob.UnrecognizedOf | src/main/java/de/avpod/telegrambot/telegram/ImageTypeRecognitionJob.java:62-70 | the infos of a snapshot's UNKNOWN documents; none for a snapshot without a document list, whose exception the per-user catch absorbs |
| RecognitionJob.PromptDocuments | src/main/java/de/avpod/telegrambot/telegram/ImageTypeRecognitionJob.java:72-124 | the store and outbox after one user's turn: send, then mark, document by document; a throwing send stops before the mark, a failing mark after the send |
| RecognitionJob.ProcessUsers | src/main/java/de/avpod/telegrambot/telegram/ImageTypeRecognitionJob.java:44-46 | the turns of the found users in order, each starting from the state the previous left |
| RecognitionJob.ImageTypeRecognitionJobTrigger.ScheduleRecognition | src/main/java/de/avpod/telegrambot/telegram/ImageTypeRecognitionJobTrigger.java:9-12 | no listener: nothing happens; otherwise that listener runs exactly once and is now active |
| RecognitionJob.ImageTypeRecognitionJobTrigger.AddListener | src/main/java/de/avpod/telegrambot/telegram/ImageTypeRecognitionJobTrigger.java:14-16 | the new listener replaces any earlier one; null unregisters |
| RecognitionJob.ImageTypeRecognitionJob.constructor | src/main/java/de/avpod/telegrambot/telegram/ImageTypeRecognitionJob.java:23-57 | starts active and registers itself as the trigger's listener |
| RecognitionJob.ImageTypeRecognitionJob.ScheduleRecognition | src/main/java/de/avpod/telegrambot/telegram/ImageTypeRecognitionJob.java:131-134 | sets active and sends nothing |
| RecognitionJob.ImageTypeRecognitionJob.BuildButtons | src/main/java/de/avpod/telegrambot/telegram/ImageTypeRecognitionJob.java:73-96 | the loop builds exactly the prompt's button row |
| RecognitionJob.ImageTypeRecognitionJob.ProcessUserWithUnrecognizedImages | src/main/java/de/avpod/telegrambot/telegram/ImageTypeRecognitionJob.java:59-128 | the store and outbox afterwards are those of prompting and marking the user's UNKNOWN documents in order, stopping at the first send or mark that throws |
| RecognitionJob.ImageTypeRecognitionJob.Tick | src/main/java/de/avpod/telegrambot/telegram/ImageTypeRecognitionJob.java:33-51 | inactive, failed scan or throwing query: nothing changes; otherwise active iff some stored user needs recognition, and every found user is processed in order |
| RecognitionJobProperties.PromptButtonLabels | src/main/java/de/avpod/telegrambot/telegram/ImageTypeRecognitionJob.java:74-96 | nine buttons: the eight category labels in order, then "Dunno, delete file" |
| RecognitionJobProperties.ButtonCallbacksAsParsed | src/main/java/de/avpod/telegrambot/telegram/ImageTypeRecognitionJob.java:75-96 | the parser reads back the delete button and the categories without '_'; the four with '_' come back as null |
| RecognitionJobProperties.ButtonCallbacksCorrected | src/main/java/de/avpod/telegrambot/telegram/ImageTypeRecognitionJob.java:75-96 | the corrected parser reads back every button exactly |
| RecognitionJobProperties.Prompts | src/main/java/de/avpod/telegrambot/telegram/ImageTypeRecognitionJob.java:72-122 | one prompt per document, position by position |
| RecognitionJobProperties.PromptsCons | src/main/java/de/avpod/telegrambot/telegram/ImageTypeRecognitionJob.java:72-122 | the prompts of a list start with the first document's prompt |
| RecognitionJobProperties.PromptsPrefixCons | src/main/java/de/avpod/telegrambot/telegram/ImageTypeRecognitionJob.java:72-122 | one more prompt sent extends the sent prefix by one document |
| RecognitionJobProperties.PromptDocumentsSendsPrefix | src/main/java/de/avpod/telegrambot/telegram/ImageTypeRecognitionJob.java:72-127 | a user's turn sends the prompts of a prefix of the documents, in order, all of whose sends succeeded, and stops at the first send that throws |
| RecognitionJobProperties.PromptDocumentsStep | src/main/java/de/avpod/telegrambot/telegram/ImageTypeRecognitionJob.java:72-124 | one prompted and marked document: the turn continues from the marked store |
| RecognitionJobProperties.PromptDocumentsTouchesOnlyOwner | src/main/java/de/avpod/telegrambot/telegram/ImageTypeRecognitionJob.java:123 | a user's turn writes only that user's record |
| RecognitionJobProperties.MarkedDocumentLeavesUnknown | src/main/java/de/avpod/telegrambot/telegram/ImageTypeRecognitionJob.java:123 | a marked document is no longer offered; the user's other UNKNOWN documents remain |
| RecognitionJobProperties.NothingToPromptNothingSent | src/main/java/de/avpod/telegrambot/telegram/ImageTypeRecognitionJob.java:62-72 | users without UNKNOWN documents: nothing sent, nothing written |
| DeferredActions.DeleteAsWrittenNeverDeletes | src/main/java/de/avpod/telegrambot/google/GoogleDriveWrapper.java:75-81 | as written, a delete that reports success leaves the file in Drive |
| DeferredActions.DeleteCallDeletes | src/main/java/de/avpod/telegrambot/google/GoogleDriveWrapper.java:75-81 | corrected: success iff Drive deleted the file, failure leaves Drive untouched |
| DeferredActions.CloudWrapper.RecognizeDocument | src/main/java/de/avpod/telegrambot/google/GoogleDriveWrapper.java:47-72 | the retry policy's outcome; on success the move is carried out, on failure nothing |
| DeferredActions.CloudWrapper.DeleteDocumentAsWritten | src/main/java/de/avpod/telegrambot/google/GoogleDriveWrapper.java:75-81 | the retry policy's outcome, and Drive unchanged |
| DeferredActions.CloudWrapper.DeleteDocument | src/main/java/de/avpod/telegrambot/google/GoogleDriveWrapper.java:75-81 | the corrected delete |
| DeferredActions.RunResolveCallback | src/main/java/de/avpod/telegrambot/telegram/CallbackUpdateProcessor.java:45-98 | cloud call first (the corrected delete for null type, move otherwise), then the storage write; the responses follow the stored status; a failure, including a record without a document list, stops the action |
| DeferredActions.RunForceFinish | src/main/java/de/avpod/telegrambot/telegram/ManualFinishTextUpdateProcessor.java:39-48 | FINISHED whatever the documents, and ALL_DOCUMENTS_RECEIVED to the chat; an absent user gets a FINISHED record without a document list |
| DeferredActions.RunPersist | src/main/java/de/avpod/telegrambot/telegram/UploadImageUpdateProcessor.java:52-64 | save the document, then WAITING_DOCUMENT_RECOGNITION whatever the status was, then wake the job; nothing sent; an absent user or a record without a document list fails before any write |
| DeferredActions.RunDeferred | src/main/java/de/avpod/telegrambot/telegram/UploadDocumentUpdateProcessor.java:46-57 | a document without a file name fails before any write; NO finishes; uploads send nothing |
| DeferredActions.LastAnswerFinishes | src/main/java/de/avpod/telegrambot/telegram/CallbackUpdateProcessor.java:56-75 | answering the last missing category deletes the prompt and thanks the user |

## Left out

- Telegram transport: polling, the webhook handler, and the execution of sends. These are I/O. A send is an appended `BotAction`, and a send that throws is the `sendOk` oracle.
- File download and upload: `TelegramFilesLoader`, `uploadFile`, and the Drive folder search and creation with their `synchronized` double checks. These are foreign calls. Their combined outcome is `TransferOutcome`, and each Drive attempt's outcome is `attempt`.
- MIME type guessing and UUID generation. These are library calls, so the file name and the fresh id are parameters.
- DynamoDB mechanics: `load`, `save`, `scan`, save behaviours and filter expressions. The store is an in-memory map.
- Storage.UserStore.UpdateFlowStatus: the UPDATE_SKIP_NULL_ATTRIBUTES save is taken to write only the name and the status, leaving an existing document list in place. The builder's primitive `chatId` would be 0, and the model writes 0 only for a user who had no record. Whether the mapper also overwrites an existing chat id is a mapper detail this model does not cover.
- DeferredActions.RunResolveCallback: the delete path uses the corrected delete of the second finding, so its contract records the file as deleted in Drive. The source's `deleteDocument` never executes the request; with it, the stored record would be removed and the Drive file would stay (DeleteAsWrittenNeverDeletes).
- Concurrency and timing: executors, futures, atomics, and the 60 s delay and 30 s period of the job's schedule. Futures are completed values, and the schedule is explicit calls to `Tick`.
- Executors.UserAwareExecutor.GetExecutor: lanes are their indices, not thread pools. Nothing runs on them.
- Executor bootstrap, configuration classes, the older root-package processors and bot, and the S3 wrappers. These are wiring or superseded code.
- The order in which registered processors are consulted. The list order is in `PROCESSOR_ORDER`. The loop that consumes it is not part of this model, so "first claimant wins" is not stated.
- `FlowStatus.java` is not part of this model. Its five constants are taken from their uses.
- `DocumentType.mandatoryDocuments()` is not defined in the source. It is the `mandatory` parameter of the store, required to name only real categories.
- Stored status and category strings are enums here. `valueOf` on a foreign string read from the table is not modelled.
- Exceptions are `Result` failures: a missing user (`IllegalStateException` in `saveDocumentInfo`, a null dereference elsewhere), a record without a document list (a null dereference), `Optional.of(null)` for a document without a file name, and Drive's `RuntimeException`.
- The callback processor resolves a callback id through stored callback data, while the job sends serialized callback strings. The model keeps both as they are and does not connect them.
- The storage test expects "UNKNOWN_NOTIFIED" where the code writes UNKNOWN_REQUESTED. The model follows the code.
- Photo sizes are unbounded integers. Java's `int` comparison cannot overflow in `comparingInt`, so nothing is lost.
- UpdateProcessors.ProcessImageMessage: requires a non-empty photo list. The photo guard ensures it, and with an empty list `get(0)` throws before the `try` block.
- DeferredActions.RunDeferred: states only the per-kind outline. The full effect of each action is in RunResolveCallback, RunForceFinish and RunPersist.
- DeferredActions.CloudWrapper.RecognizeDocument: the folder lookup and the move are one attempt. A parent join failure inside it is an `OtherFailure`, which is not retried.

## Findings

| source | as written | input that shows it | evidently intended | confidence | as-written member | corrected member |
|---|---|---|---|---|---|---|
| src/main/java/de/avpod/telegrambot/RecognizeDocumentCallbackData.java:26-34 | the first field after `split("_")` is taken as the type name, but four real names contain '_' | `new RecognizeDocumentCallbackData(WORK_BOOK, false, "d1", "c1")` serializes to "WORK_BOOK_d1_c1"; "WORK" is no type, so deserialize returns null | the two ids are the last two fields and everything before them is the head | not executed | CallbackCodec.RealTypeWithSeparatorIsLost | CallbackCodec.DeserializeFromEndSerialize |
| src/main/java/de/avpod/telegrambot/google/GoogleDriveWrapper.java:78 | `drive.files().delete(cloudId)` builds the request but never calls `execute()` | deleteDocument("c1") with a working connection logs success, and the file stays in Drive | `drive.files().delete(cloudId).execute()` | not executed | DeferredActions.DeleteAsWrittenNeverDeletes | DeferredActions.DeleteCallDeletes |
