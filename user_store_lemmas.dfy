/** What the status rule and the store operations guarantee. */
module StorageProperties {
  import opened Wrappers
  import opened Documents
  import opened Storage

  /** Seven of eight categories is never FINISHED; all eight always is,
      whatever else the list holds. */
  lemma FinishedIffAllReal(documents: seq<StoredDocument>, mandatory: seq<DocumentType>)
    ensures StatusOf(documents, mandatory) == FINISHED <==>
      forall t :: IsReal(t) ==> exists i :: 0 <= i < |documents| && documents[i].documentType == t
  {
    var present := TypesPresent(documents);
    forall t | IsReal(t)
      ensures t in present <==> exists i :: 0 <= i < |documents| && documents[i].documentType == t
    {
      if t in present {
        var d :| d in documents && d.documentType == t;
        var i :| 0 <= i < |documents| && documents[i] == d;
      }
    }
  }

  /** The rule never yields NEW: NEW belongs to a user the store has never
      seen. */
  lemma StatusNeverNew(documents: seq<StoredDocument>, mandatory: seq<DocumentType>)
    ensures StatusOf(documents, mandatory) != NEW
  {
  }

  /** A category without an answer keeps the user in recognition unless all
      real categories are already there. */
  lemma UnrecognizedMeansWaiting(documents: seq<StoredDocument>, mandatory: seq<DocumentType>, i: nat)
    requires i < |documents|
    requires documents[i].documentType == UNKNOWN || documents[i].documentType == UNKNOWN_REQUESTED
    ensures StatusOf(documents, mandatory) in {FINISHED, WAITING_DOCUMENT_RECOGNITION}
  {
    assert documents[i] in documents;
  }

  /** The status depends only on which categories occur: not on the order
      of the documents, their ids, or how many documents share a category. */
  lemma StatusDependsOnCategoriesOnly(a: seq<StoredDocument>, b: seq<StoredDocument>, mandatory: seq<DocumentType>)
    requires forall d :: d in a ==> exists e :: e in b && e.documentType == d.documentType
    requires forall e :: e in b ==> exists d :: d in a && d.documentType == e.documentType
    ensures StatusOf(a, mandatory) == StatusOf(b, mandatory)
  {
    assert TypesPresent(a) == TypesPresent(b);
  }

  lemma {:induction false} StatusPermutationInvariant(a: seq<StoredDocument>, b: seq<StoredDocument>, mandatory: seq<DocumentType>)
    requires multiset(a) == multiset(b)
    ensures StatusOf(a, mandatory) == StatusOf(b, mandatory)
  {
    forall d | d in a ensures d in b {
      assert d in multiset(a);
    }
    forall e | e in b ensures e in a {
      assert e in multiset(b);
    }
    StatusDependsOnCategoriesOnly(a, b, mandatory);
  }

  /** Another document of a category already present changes nothing. */
  lemma StatusIgnoresDuplicates(documents: seq<StoredDocument>, d: StoredDocument, mandatory: seq<DocumentType>)
    requires exists e :: e in documents && e.documentType == d.documentType
    ensures StatusOf(documents + [d], mandatory) == StatusOf(documents, mandatory)
  {
    assert TypesPresent(documents + [d]) == TypesPresent(documents);
  }

  /** With nothing uploaded the user waits for files; if no category is
      mandatory the empty list already counts as submitted. */
  lemma StatusOfNothing(mandatory: seq<DocumentType>)
    ensures mandatory != [] ==> StatusOf([], mandatory) == WAITING_FILES
    ensures mandatory == [] ==> StatusOf([], mandatory) == MANDATORY_DOCUMENTS_SUBMITTED
  {
    assert TypesPresent([]) == {};
    if mandatory != [] {
      assert mandatory[0] in mandatory;
    }
    assert PASSPORT in RealDocuments();
  }

  /** A newly saved document is UNKNOWN, so the status the rule would give
      right after a save is WAITING_DOCUMENT_RECOGNITION or FINISHED. */
  lemma SavedDocumentAwaitsRecognition(documents: seq<StoredDocument>, mandatory: seq<DocumentType>,
                                        id: string, telegramFileId: string, cloudIdentifier: string,
                                        cloudFileName: string, thumbnail: Option<string>)
    ensures var d := NewDocument(id, telegramFileId, cloudIdentifier, cloudFileName, thumbnail);
      StatusOf(documents + [d], mandatory) in {FINISHED, WAITING_DOCUMENT_RECOGNITION}
  {
    var d := NewDocument(id, telegramFileId, cloudIdentifier, cloudFileName, thumbnail);
    UnrecognizedMeansWaiting(documents + [d], mandatory, |documents|);
  }

  /** Marking an existing document as asked about leaves the user in
      recognition (or finished). */
  lemma MarkedStatus(u: UserInfo, id: string, mandatory: seq<DocumentType>, i: nat)
    requires u.documents.Some?
    requires i < |u.documents.value| && u.documents.value[i].id == id
    ensures RetypeEffect(u, id, UNKNOWN_REQUESTED, mandatory).status in {FINISHED, WAITING_DOCUMENT_RECOGNITION}
  {
    var retyped := RetypeById(u.documents.value, id, UNKNOWN_REQUESTED);
    UnrecognizedMeansWaiting(retyped, mandatory, i);
  }

  /** Deleting: no document with the id survives, every other document
      does, and the record is untouched when there was nothing to delete. */
  lemma DeleteEffectProperties(u: UserInfo, id: string, mandatory: seq<DocumentType>)
    requires u.documents.Some?
    ensures var v := DeleteEffect(u, id, mandatory);
      && v.documents.Some?
      && (forall d :: d in v.documents.value <==> d in u.documents.value && d.id != id)
      && ((forall i :: 0 <= i < |u.documents.value| ==> u.documents.value[i].id != id) ==> v == u)
      && ((exists i :: 0 <= i < |u.documents.value| && u.documents.value[i].id == id) ==>
            v.status == StatusOf(v.documents.value, mandatory))
      && v.username == u.username && v.chatId == u.chatId
  {
  }

  /** Retyping touches only the documents with the id, and only their
      category; the status is the rule applied to the result. */
  lemma RetypeEffectProperties(u: UserInfo, id: string, t: DocumentType, mandatory: seq<DocumentType>)
    requires u.documents.Some?
    ensures var v := RetypeEffect(u, id, t, mandatory);
      && v.documents.Some?
      && |v.documents.value| == |u.documents.value|
      && (forall i :: 0 <= i < |u.documents.value| && u.documents.value[i].id == id ==>
            v.documents.value[i] == u.documents.value[i].(documentType := t))
      && (forall i :: 0 <= i < |u.documents.value| && u.documents.value[i].id != id ==>
            v.documents.value[i] == u.documents.value[i])
      && v.status == StatusOf(v.documents.value, mandatory)
      && v.username == u.username && v.chatId == u.chatId
  {
  }

  /** Retyping by an id nobody has still recomputes the status (the source
      saves in every case). */
  lemma RetypeUnknownIdRecomputes(u: UserInfo, id: string, t: DocumentType, mandatory: seq<DocumentType>)
    requires u.documents.Some?
    requires forall i :: 0 <= i < |u.documents.value| ==> u.documents.value[i].id != id
    ensures RetypeEffect(u, id, t, mandatory) == u.(status := StatusOf(u.documents.value, mandatory))
  {
    var r := RetypeById(u.documents.value, id, t);
    assert r == u.documents.value;
  }

  /** A document the user answers for gets its category, and a document
      answered as all eight categories finishes the flow. */
  lemma {:induction false} RetypeAllFinishes(u: UserInfo, id: string, t: DocumentType, mandatory: seq<DocumentType>)
    requires IsReal(t) && u.documents.Some?
    requires forall s :: IsReal(s) && s != t ==> exists d :: d in u.documents.value && d.id != id && d.documentType == s
    requires exists d :: d in u.documents.value && d.id == id
    ensures RetypeEffect(u, id, t, mandatory).status == FINISHED
  {
    var v := RetypeEffect(u, id, t, mandatory);
    var present := TypesPresent(v.documents.value);
    forall s | s in RealDocuments() ensures s in present {
      if s == t {
        var d :| d in u.documents.value && d.id == id;
        var i :| 0 <= i < |u.documents.value| && u.documents.value[i] == d;
        assert v.documents.value[i].documentType == t;
        assert v.documents.value[i] in v.documents.value;
      } else {
        var d :| d in u.documents.value && d.id != id && d.documentType == s;
        var i :| 0 <= i < |u.documents.value| && u.documents.value[i] == d;
        assert v.documents.value[i] == d;
        assert v.documents.value[i] in v.documents.value;
      }
    }
  }

  /** A user the recognition query returns still has an UNKNOWN document,
      which queryUnrecognizedDocuments then reports. */
  lemma QueriedUserHasUnrecognized(users: map<string, UserInfo>, scanOrder: seq<string>, n: string)
    requires n in users && users[n].username == n
    requires users[n] in UsersNeedingRecognition(users, scanOrder)
    ensures users[n].documents.Some? && UnknownDocuments(users[n].documents.value) != []
  {
    var u := users[n];
    var i :| 0 <= i < |u.documents.value| && u.documents.value[i].documentType == UNKNOWN;
    assert u.documents.value[i] in u.documents.value;
    assert u.documents.value[i] in UnknownDocuments(u.documents.value);
  }

  /** The UNKNOWN filter keeps list order: filtering a concatenation is
      the concatenation of the filtered parts. */
  lemma {:induction false} UnknownDocumentsAppend(a: seq<StoredDocument>, b: seq<StoredDocument>)
    ensures UnknownDocuments(a + b) == UnknownDocuments(a) + UnknownDocuments(b)
  {
    if a == [] {
      assert a + b == b;
    } else {
      assert (a + b)[0] == a[0];
      assert (a + b)[1..] == a[1..] + b;
      UnknownDocumentsAppend(a[1..], b);
    }
  }

  /** A saved document is reported by queryUnrecognizedDocuments after
      every document already waiting. */
  lemma SavedDocumentQueuedLast(documents: seq<StoredDocument>, id: string, telegramFileId: string,
                                cloudIdentifier: string, cloudFileName: string, thumbnail: Option<string>)
    ensures var d := NewDocument(id, telegramFileId, cloudIdentifier, cloudFileName, thumbnail);
      UnknownDocuments(documents + [d]) == UnknownDocuments(documents) + [d]
  {
    var d := NewDocument(id, telegramFileId, cloudIdentifier, cloudFileName, thumbnail);
    UnknownDocumentsAppend(documents, [d]);
    assert UnknownDocuments([d]) == [d] + UnknownDocuments([d][1..]);
  }
}
