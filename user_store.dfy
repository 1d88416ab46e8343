/** The per-user record store: one UserInfo per username, each holding a flow
    status and an ordered list of stored documents. The database client is
    abstracted as a map; every operation loads a record, changes it and
    saves it whole. */
module Storage {
  import opened Wrappers
  import opened Documents

  datatype FlowStatus =
    | NEW
    | WAITING_FILES
    | WAITING_DOCUMENT_RECOGNITION
    | MANDATORY_DOCUMENTS_SUBMITTED
    | FINISHED

  datatype StoredDocument = StoredDocument(
    id: string,
    documentType: DocumentType,
    cloudIdentifier: string,
    originalFilename: Option<string>,
    savedFilename: string,
    telegramFileId: string,
    telegramThumbnailId: Option<string>)

  datatype UserInfo = UserInfo(
    username: string,
    status: FlowStatus,
    firstName: Option<string>,
    lastName: Option<string>,
    chatId: int,
    /** None for a record written without a document list: the source's
        List field is then null when the record is loaded. */
    documents: Option<seq<StoredDocument>>)

  /** What a classification prompt needs to know about one document. */
  datatype UnrecognizedDocumentInfo = UnrecognizedDocumentInfo(
    id: string,
    chatId: int,
    cloudFileId: string,
    telegramFileId: string,
    telegramThumbnailId: Option<string>,
    originalFileName: Option<string>)

  /** UserNotFound: loading a user that does not exist, an
      IllegalStateException in saveDocumentInfo and a null dereference
      elsewhere. DocumentsMissing: a null dereference of a loaded record's
      document list. */
  datatype StoreError = UserNotFound | DocumentsMissing

  // ---------------------------------------------------------------------
  // The status rule

  function TypesPresent(documents: seq<StoredDocument>): set<DocumentType>
  {
    set d | d in documents :: d.documentType
  }

  predicate HasAll(present: set<DocumentType>, required: seq<DocumentType>)
  {
    forall t :: t in required ==> t in present
  }

  /** The flow status a document list calls for: FINISHED once every real
      category is present; otherwise, when no document waits for (or has
      been asked for) a category, MANDATORY_DOCUMENTS_SUBMITTED or
      WAITING_FILES by the mandatory categories; otherwise
      WAITING_DOCUMENT_RECOGNITION. */
  function StatusOf(documents: seq<StoredDocument>, mandatory: seq<DocumentType>): FlowStatus
  {
    var present := TypesPresent(documents);
    if HasAll(present, RealDocuments()) then FINISHED
    else if UNKNOWN !in present && UNKNOWN_REQUESTED !in present then
      if HasAll(present, mandatory) then MANDATORY_DOCUMENTS_SUBMITTED else WAITING_FILES
    else WAITING_DOCUMENT_RECOGNITION
  }

  /** A presence map as calculateUserStatus keeps it: keyed by exactly the
      real categories, each mapped to whether it is in `present`. */
  ghost predicate PresenceMap(m: map<DocumentType, bool>, present: set<DocumentType>)
  {
    forall t :: (t in m <==> IsReal(t)) && (t in m ==> (m[t] <==> t in present))
  }

  lemma TypesPresentPrefix(documents: seq<StoredDocument>, i: nat)
    requires i < |documents|
    ensures TypesPresent(documents[..i + 1]) == TypesPresent(documents[..i]) + {documents[i].documentType}
  {
    assert documents[..i + 1] == documents[..i] + [documents[i]];
  }

  /** The first half of calculateUserStatus: a map keyed by the real
      categories, each set to false and then to true for every category a
      document carries (computeIfPresent leaves the other categories out). */
  method PresenceOf(documents: seq<StoredDocument>) returns (documentsPresent: map<DocumentType, bool>)
    ensures PresenceMap(documentsPresent, TypesPresent(documents))
  {
    var realTypes := RealDocuments();
    documentsPresent := map[];
    for i := 0 to |realTypes|
      invariant forall t :: t in documentsPresent <==> t in realTypes[..i]
      invariant forall t :: t in documentsPresent ==> !documentsPresent[t]
    {
      documentsPresent := documentsPresent[realTypes[i] := false];
    }
    assert realTypes[..|realTypes|] == realTypes;
    assert documents[..0] == [];
    for i := 0 to |documents|
      invariant PresenceMap(documentsPresent, TypesPresent(documents[..i]))
    {
      TypesPresentPrefix(documents, i);
      var t := documents[i].documentType;
      if t in documentsPresent {
        documentsPresent := documentsPresent[t := true];
      }
    }
    assert documents[..|documents|] == documents;
  }

  /** calculateUserStatus: the presence map is folded with AND; failing
      that, the documents are searched for one without a category, and the
      map is consulted again for the mandatory categories. */
  method CalculateUserStatus(documents: seq<StoredDocument>, mandatory: seq<DocumentType>)
    returns (status: FlowStatus)
    requires MandatoryIsReal(mandatory)
    ensures status == StatusOf(documents, mandatory)
  {
    var documentsPresent := PresenceOf(documents);
    ghost var present := TypesPresent(documents);
    var realTypes := RealDocuments();
    var allDocumentsFound := true;
    for i := 0 to |realTypes|
      invariant allDocumentsFound <==> forall j :: 0 <= j < i ==> realTypes[j] in present
    {
      allDocumentsFound := allDocumentsFound && documentsPresent[realTypes[i]];
    }
    if allDocumentsFound {
      status := FINISHED;
      return;
    }

    var noneUnrecognized := true;
    for i := 0 to |documents|
      invariant noneUnrecognized <==> forall j :: 0 <= j < i ==>
        documents[j].documentType != UNKNOWN && documents[j].documentType != UNKNOWN_REQUESTED
    {
      var t := documents[i].documentType;
      if t == UNKNOWN || t == UNKNOWN_REQUESTED {
        noneUnrecognized := false;
      }
    }
    if noneUnrecognized {
      var allMandatorySubmitted := true;
      for i := 0 to |mandatory|
        invariant allMandatorySubmitted <==> forall j :: 0 <= j < i ==> mandatory[j] in present
      {
        allMandatorySubmitted := allMandatorySubmitted && documentsPresent[mandatory[i]];
      }
      status := if allMandatorySubmitted then MANDATORY_DOCUMENTS_SUBMITTED else WAITING_FILES;
    } else {
      status := WAITING_DOCUMENT_RECOGNITION;
    }
  }

  // ---------------------------------------------------------------------
  // Edits of a document list

  /** removeIf on the id: every other document, in order. */
  function RemoveById(documents: seq<StoredDocument>, id: string): (kept: seq<StoredDocument>)
    ensures forall d :: d in kept <==> d in documents && d.id != id
    ensures |kept| <= |documents|
    ensures |kept| == |documents| <==> forall i :: 0 <= i < |documents| ==> documents[i].id != id
    ensures |kept| == |documents| ==> kept == documents
  {
    if documents == [] then []
    else
      var rest := RemoveById(documents[1..], id);
      if documents[0].id == id then rest else [documents[0]] + rest
  }

  /** setDocumentType on every document with the id; the rest untouched. */
  function RetypeById(documents: seq<StoredDocument>, id: string, t: DocumentType): (r: seq<StoredDocument>)
    ensures |r| == |documents|
    ensures forall i :: 0 <= i < |r| ==>
      r[i] == if documents[i].id == id then documents[i].(documentType := t) else documents[i]
  {
    if documents == [] then []
    else
      var d := documents[0];
      [if d.id == id then d.(documentType := t) else d] + RetypeById(documents[1..], id, t)
  }

  /** The documents still waiting for a category, in list order. */
  function UnknownDocuments(documents: seq<StoredDocument>): (r: seq<StoredDocument>)
    ensures forall d :: d in r <==> d in documents && d.documentType == UNKNOWN
    ensures |r| <= |documents|
  {
    if documents == [] then []
    else
      var rest := UnknownDocuments(documents[1..]);
      if documents[0].documentType == UNKNOWN then [documents[0]] + rest else rest
  }

  function InfoOf(d: StoredDocument, chatId: int): UnrecognizedDocumentInfo
  {
    UnrecognizedDocumentInfo(d.id, chatId, d.cloudIdentifier, d.telegramFileId,
                             d.telegramThumbnailId, d.originalFilename)
  }

  function InfosOf(documents: seq<StoredDocument>, chatId: int): (r: seq<UnrecognizedDocumentInfo>)
    ensures |r| == |documents|
    ensures forall i :: 0 <= i < |r| ==> r[i] == InfoOf(documents[i], chatId)
  {
    if documents == [] then [] else [InfoOf(documents[0], chatId)] + InfosOf(documents[1..], chatId)
  }

  /** The new document saveDocumentInfo appends: always UNKNOWN, and with
      no original filename whatever the caller passed. */
  function NewDocument(id: string, telegramFileId: string, cloudIdentifier: string,
                       cloudFileName: string, telegramThumbnailId: Option<string>): StoredDocument
  {
    StoredDocument(id, UNKNOWN, cloudIdentifier, None, cloudFileName, telegramFileId, telegramThumbnailId)
  }

  /** deleteDocument on a loaded record with a document list: unchanged
      when no document has the id, otherwise those documents go and the
      status is recomputed. */
  function DeleteEffect(u: UserInfo, id: string, mandatory: seq<DocumentType>): UserInfo
    requires u.documents.Some?
  {
    var kept := RemoveById(u.documents.value, id);
    if |kept| == |u.documents.value| then u
    else u.(documents := Some(kept), status := StatusOf(kept, mandatory))
  }

  /** doUpdateDocumentType on a loaded record with a document list: retype,
      then recompute. */
  function RetypeEffect(u: UserInfo, id: string, t: DocumentType, mandatory: seq<DocumentType>): UserInfo
    requires u.documents.Some?
  {
    var retyped := RetypeById(u.documents.value, id, t);
    u.(documents := Some(retyped), status := StatusOf(retyped, mandatory))
  }

  /** The scan's filter expression: status neither NEW nor FINISHED. */
  predicate PassesStatusFilter(u: UserInfo)
  {
    u.status != NEW && u.status != FINISHED
  }

  /** The filter of queryUsersForImageRecognition: the status filter, and at
      least one document still UNKNOWN. */
  predicate NeedsRecognition(u: UserInfo)
  {
    && PassesStatusFilter(u)
    && u.documents.Some?
    && exists i :: 0 <= i < |u.documents.value| && u.documents.value[i].documentType == UNKNOWN
  }

  /** A scan lists every stored username exactly once, in an order the
      database chooses, and nothing else. */
  predicate IsScanOf(users: map<string, UserInfo>, scanOrder: seq<string>)
  {
    && (forall n :: n in users ==> n in scanOrder)
    && (forall i :: 0 <= i < |scanOrder| ==> scanOrder[i] in users)
    && (forall i, j :: 0 <= i < j < |scanOrder| ==> scanOrder[i] != scanOrder[j])
  }

  /** Some record passes the status filter but has no document list, so the
      anyMatch over its documents dereferences null and the query throws. */
  predicate ListMissingInScan(users: map<string, UserInfo>)
  {
    exists n :: n in users && PassesStatusFilter(users[n]) && users[n].documents.None?
  }

  /** The users of a scan, in the scan's order, that pass the filter. */
  function UsersNeedingRecognition(users: map<string, UserInfo>, scanOrder: seq<string>): (r: seq<UserInfo>)
    ensures |r| <= |scanOrder|
    ensures forall u :: u in r ==> NeedsRecognition(u)
    ensures forall u :: u in r ==> exists n :: n in scanOrder && n in users && users[n] == u
    ensures forall n :: n in scanOrder && n in users && NeedsRecognition(users[n]) ==> users[n] in r
  {
    if scanOrder == [] then []
    else
      var rest := UsersNeedingRecognition(users, scanOrder[1..]);
      var n := scanOrder[0];
      if n in users && NeedsRecognition(users[n]) then [users[n]] + rest else rest
  }

  /** Over a scan without repeats of a store keyed by username, no user is
      returned twice. */
  lemma {:induction false} UsersNeedingRecognitionDistinct(users: map<string, UserInfo>, scanOrder: seq<string>)
    requires forall n :: n in users ==> users[n].username == n
    requires forall i, j :: 0 <= i < j < |scanOrder| ==> scanOrder[i] != scanOrder[j]
    ensures forall i, j :: 0 <= i < j < |UsersNeedingRecognition(users, scanOrder)| ==>
      UsersNeedingRecognition(users, scanOrder)[i].username != UsersNeedingRecognition(users, scanOrder)[j].username
  {
    if scanOrder != [] {
      var tail := scanOrder[1..];
      UsersNeedingRecognitionDistinct(users, tail);
      var rest := UsersNeedingRecognition(users, tail);
      var n := scanOrder[0];
      forall u | u in rest ensures u.username != n {
        var m :| m in tail && m in users && users[m] == u;
        var k :| 0 <= k < |tail| && tail[k] == m;
        assert scanOrder[k + 1] == m;
      }
      if n in users && NeedsRecognition(users[n]) {
        var r := [users[n]] + rest;
        forall i, j | 0 <= i < j < |r| ensures r[i].username != r[j].username {
          assert r[j] == rest[j - 1];
          if i > 0 {
            assert r[i] == rest[i - 1];
          } else {
            assert rest[j - 1] in rest;
          }
        }
      }
    }
  }

  // ---------------------------------------------------------------------
  // The store

  class UserStore {
    var users: map<string, UserInfo>
    /** DocumentType.mandatoryDocuments(), a configuration of real categories. */
    const mandatory: seq<DocumentType>

    ghost predicate Valid()
      reads this
    {
      && MandatoryIsReal(mandatory)
      && forall n :: n in users ==> users[n].username == n
    }

    constructor (mandatory: seq<DocumentType>)
      requires MandatoryIsReal(mandatory)
      ensures Valid() && users == map[] && this.mandatory == mandatory
    {
      this.mandatory := mandatory;
      users := map[];
    }

    /** getFlowStatus: NEW for a user with no record. */
    function GetFlowStatus(userName: string): (status: FlowStatus)
      reads this
      ensures userName !in users ==> status == NEW
      ensures userName in users ==> status == users[userName].status
    {
      if userName in users then users[userName].status else NEW
    }

    method InsertUser(userName: string, firstName: Option<string>, lastName: Option<string>,
                      chatId: int, flowStatus: FlowStatus)
      requires Valid()
      modifies this
      ensures Valid()
      ensures users == old(users)[userName := UserInfo(userName, flowStatus, firstName, lastName, chatId, Some([]))]
      ensures GetFlowStatus(userName) == flowStatus
    {
      users := users[userName := UserInfo(userName, flowStatus, firstName, lastName, chatId, Some([]))];
    }

    /** updateFlowStatus writes the status attribute only; for a user with no
        record it creates one holding just the name and the status, with no
        document list. */
    method UpdateFlowStatus(userName: string, flowStatus: FlowStatus)
      requires Valid()
      modifies this
      ensures Valid()
      ensures userName in old(users) ==>
        users == old(users)[userName := old(users)[userName].(status := flowStatus)]
      ensures userName !in old(users) ==>
        users == old(users)[userName := UserInfo(userName, flowStatus, None, None, 0, None)]
      ensures GetFlowStatus(userName) == flowStatus
    {
      if userName in users {
        users := users[userName := users[userName].(status := flowStatus)];
      } else {
        users := users[userName := UserInfo(userName, flowStatus, None, None, 0, None)];
      }
    }

    /** saveDocumentInfo; freshId stands for the random UUID. */
    method SaveDocumentInfo(userName: string, telegramFileId: string, cloudIdentifier: string,
                            originalFileName: Option<string>, cloudFileName: string,
                            telegramThumbnailId: Option<string>, freshId: string)
      returns (r: Result<string, StoreError>)
      requires Valid()
      modifies this
      ensures Valid()
      ensures userName !in old(users) ==> r == Failure(UserNotFound) && users == old(users)
      ensures userName in old(users) && old(users)[userName].documents.None? ==>
        r == Failure(DocumentsMissing) && users == old(users)
      ensures userName in old(users) && old(users)[userName].documents.Some? ==>
        var u := old(users)[userName];
        && r == Success(freshId)
        && users == old(users)[userName := u.(documents := Some(u.documents.value +
             [NewDocument(freshId, telegramFileId, cloudIdentifier, cloudFileName, telegramThumbnailId)]))]
    {
      if userName !in users {
        return Failure(UserNotFound);
      }
      var userInfo := users[userName];
      if userInfo.documents.None? {
        return Failure(DocumentsMissing);
      }
      var document := NewDocument(freshId, telegramFileId, cloudIdentifier, cloudFileName, telegramThumbnailId);
      users := users[userName := userInfo.(documents := Some(userInfo.documents.value + [document]))];
      return Success(freshId);
    }

    method DeleteDocument(userName: string, documentId: string) returns (r: Result<FlowStatus, StoreError>)
      requires Valid()
      modifies this
      ensures Valid()
      ensures userName !in old(users) ==> r == Failure(UserNotFound) && users == old(users)
      ensures userName in old(users) && old(users)[userName].documents.None? ==>
        r == Failure(DocumentsMissing) && users == old(users)
      ensures userName in old(users) && old(users)[userName].documents.Some? ==>
        var u := DeleteEffect(old(users)[userName], documentId, mandatory);
        users == old(users)[userName := u] && r == Success(u.status)
    {
      if userName !in users {
        return Failure(UserNotFound);
      }
      var userInfo := users[userName];
      if userInfo.documents.None? {
        return Failure(DocumentsMissing);
      }
      var kept := RemoveById(userInfo.documents.value, documentId);
      if |kept| == |userInfo.documents.value| {
        return Success(userInfo.status);
      }
      var flowStatus := CalculateUserStatus(kept, mandatory);
      users := users[userName := userInfo.(documents := Some(kept), status := flowStatus)];
      return Success(flowStatus);
    }

    method UpdateDocumentType(userName: string, documentId: string, documentType: DocumentType)
      returns (r: Result<FlowStatus, StoreError>)
      requires Valid()
      modifies this
      ensures Valid()
      ensures userName !in old(users) ==> r == Failure(UserNotFound) && users == old(users)
      ensures userName in old(users) && old(users)[userName].documents.None? ==>
        r == Failure(DocumentsMissing) && users == old(users)
      ensures userName in old(users) && old(users)[userName].documents.Some? ==>
        var u := RetypeEffect(old(users)[userName], documentId, documentType, mandatory);
        users == old(users)[userName := u] && r == Success(u.status)
    {
      if userName !in users {
        return Failure(UserNotFound);
      }
      var userInfo := users[userName];
      if userInfo.documents.None? {
        return Failure(DocumentsMissing);
      }
      var retyped := RetypeById(userInfo.documents.value, documentId, documentType);
      var newFlowStatus := CalculateUserStatus(retyped, mandatory);
      users := users[userName := userInfo.(documents := Some(retyped), status := newFlowStatus)];
      return Success(newFlowStatus);
    }

    method MarkDocumentAsNotifiedForRecognition(userName: string, documentId: string)
      returns (r: Result<FlowStatus, StoreError>)
      requires Valid()
      modifies this
      ensures Valid()
      ensures userName !in old(users) ==> r == Failure(UserNotFound) && users == old(users)
      ensures userName in old(users) && old(users)[userName].documents.None? ==>
        r == Failure(DocumentsMissing) && users == old(users)
      ensures userName in old(users) && old(users)[userName].documents.Some? ==>
        var u := RetypeEffect(old(users)[userName], documentId, UNKNOWN_REQUESTED, mandatory);
        users == old(users)[userName := u] && r == Success(u.status)
    {
      r := UpdateDocumentType(userName, documentId, UNKNOWN_REQUESTED);
    }

    /** queryUsersForImageRecognition; scanOrder is the order in which the
        table scan returns the usernames. None: the filter met a record
        without a document list and the query threw. */
    function QueryUsersForImageRecognition(scanOrder: seq<string>): (r: Option<seq<UserInfo>>)
      requires Valid()
      requires IsScanOf(users, scanOrder)
      reads this
      ensures r.None? <==> ListMissingInScan(users)
      ensures r.Some? ==> forall u :: u in r.value <==> u in users.Values && NeedsRecognition(u)
      ensures r.Some? ==> forall i, j :: 0 <= i < j < |r.value| ==> r.value[i].username != r.value[j].username
    {
      if ListMissingInScan(users) then None
      else
        UsersNeedingRecognitionDistinct(users, scanOrder);
        Some(UsersNeedingRecognition(users, scanOrder))
    }

    function QueryUnrecognizedDocuments(userName: string): (r: Result<seq<UnrecognizedDocumentInfo>, StoreError>)
      reads this
      ensures userName !in users <==> r == Failure(UserNotFound)
      ensures userName in users && users[userName].documents.None? <==> r == Failure(DocumentsMissing)
      ensures r.Success? ==>
        var u := users[userName];
        |r.value| == |UnknownDocuments(u.documents.value)| &&
        forall i :: 0 <= i < |r.value| ==>
          r.value[i].chatId == u.chatId &&
          exists d :: d in u.documents.value && d.documentType == UNKNOWN && r.value[i] == InfoOf(d, u.chatId)
    {
      if userName !in users then Failure(UserNotFound)
      else
        var u := users[userName];
        if u.documents.None? then Failure(DocumentsMissing)
        else Success(InfosOf(UnknownDocuments(u.documents.value), u.chatId))
    }
  }
}
