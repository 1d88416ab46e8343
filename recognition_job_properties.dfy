/** What a recognition prompt offers and what a tick leaves behind. */
module RecognitionJobProperties {
  import opened Wrappers
  import opened Documents
  import opened Storage
  import opened TelegramApi
  import opened CallbackCodec
  import opened RecognitionJob

  /** The buttons are labelled with the categories' texts in the order of
      realDocuments(), followed by "Dunno, delete file". */
  lemma PromptButtonLabels(documentId: string, cloudFileId: string)
    ensures var b := PromptButtons(documentId, cloudFileId);
      && |b| == 9
      && [b[0].text, b[1].text, b[2].text, b[3].text, b[4].text, b[5].text, b[6].text, b[7].text]
         == [Text(PASSPORT), Text(WORK_BOOK), Text(DIPLOMA), Text(INN),
             Text(SNILS), Text(FORM_182), Text(CARD_DATA), Text(MILITARY_ID)]
      && b[8].text == DELETE_BUTTON_TEXT
  {
    RealDocumentsOrder();
  }

  /** What the parser makes of each button's callback: the delete button
      and the categories without '_' in their names come back as sent; the
      four categories with '_' come back as nothing. */
  lemma ButtonCallbacksAsParsed(documentId: string, cloudFileId: string, i: nat)
    requires SEPARATOR !in documentId && SEPARATOR !in cloudFileId && cloudFileId != ""
    requires i <= |RealDocuments()|
    ensures var b := PromptButtons(documentId, cloudFileId);
      i == |RealDocuments()| ==>
        Deserialize(b[i].callbackData) == Some(RecognizeDocumentCallbackData(None, true, documentId, cloudFileId))
    ensures var b := PromptButtons(documentId, cloudFileId);
      i < |RealDocuments()| && SEPARATOR !in Name(RealDocuments()[i]) ==>
        Deserialize(b[i].callbackData) ==
          Some(RecognizeDocumentCallbackData(Some(RealDocuments()[i]), false, documentId, cloudFileId))
    ensures var b := PromptButtons(documentId, cloudFileId);
      i < |RealDocuments()| && SEPARATOR in Name(RealDocuments()[i]) ==>
        Deserialize(b[i].callbackData) == None
  {
    if i == |RealDocuments()| {
      DeserializeSerialize(RecognizeDocumentCallbackData(None, true, documentId, cloudFileId));
    } else {
      var t := RealDocuments()[i];
      var x := RecognizeDocumentCallbackData(Some(t), false, documentId, cloudFileId);
      if SEPARATOR in Name(t) {
        NamesWithSeparator(t);
        RealTypeWithSeparatorIsLost(x);
      } else {
        DeserializeSerialize(x);
      }
    }
  }

  /** With the corrected parser every button's callback comes back as
      sent, for every category. */
  lemma ButtonCallbacksCorrected(documentId: string, cloudFileId: string, i: nat)
    requires SEPARATOR !in documentId && SEPARATOR !in cloudFileId
    requires i <= |RealDocuments()|
    ensures var b := PromptButtons(documentId, cloudFileId);
      DeserializeFromEnd(b[i].callbackData) ==
        if i == |RealDocuments()| then Some(RecognizeDocumentCallbackData(None, true, documentId, cloudFileId))
        else Some(RecognizeDocumentCallbackData(Some(RealDocuments()[i]), false, documentId, cloudFileId))
  {
    if i == |RealDocuments()| {
      DeserializeFromEndSerialize(RecognizeDocumentCallbackData(None, true, documentId, cloudFileId));
    } else {
      DeserializeFromEndSerialize(RecognizeDocumentCallbackData(Some(RealDocuments()[i]), false, documentId, cloudFileId));
    }
  }

  function Prompts(infos: seq<UnrecognizedDocumentInfo>): (r: seq<BotAction>)
    ensures |r| == |infos|
    ensures forall i :: 0 <= i < |r| ==> r[i] == PromptFor(infos[i])
  {
    if infos == [] then [] else [PromptFor(infos[0])] + Prompts(infos[1..])
  }

  lemma PromptsCons(info: UnrecognizedDocumentInfo, rest: seq<UnrecognizedDocumentInfo>)
    ensures Prompts([info] + rest) == [PromptFor(info)] + Prompts(rest)
  {
    assert ([info] + rest)[1..] == rest;
  }

  /** A user's turn sends the prompts of a prefix of the documents, in
      order, stopping at the first send that throws; the documents after
      it wait for the next tick. */
  lemma {:induction false} PromptDocumentsSendsPrefix(name: string, infos: seq<UnrecognizedDocumentInfo>,
                                                       users: map<string, UserInfo>, sent: seq<BotAction>,
                                                       sendOk: UnrecognizedDocumentInfo -> bool,
                                                       mandatory: seq<DocumentType>)
    returns (k: nat)
    ensures k <= |infos|
    ensures PromptDocuments(name, infos, users, sent, sendOk, mandatory).1 == sent + Prompts(infos[..k])
    ensures forall j :: 0 <= j < k ==> sendOk(infos[j])
    ensures k < |infos| && name in users && users[name].documents.Some? ==> !sendOk(infos[k])
  {
    if infos == [] || !sendOk(infos[0]) {
      k := 0;
      assert infos[..0] == [];
    } else if name !in users || users[name].documents.None? {
      k := 1;
      assert infos[..1] == [infos[0]] + [];
      PromptsCons(infos[0], []);
    } else {
      var next := PromptDocumentsStep(name, infos, users, sent, sendOk, mandatory);
      var rest := PromptDocumentsSendsPrefix(name, infos[1..], next, sent + [PromptFor(infos[0])], sendOk, mandatory);
      k := rest + 1;
      PromptsPrefixCons(infos, rest, sent);
      forall j | 0 <= j < k ensures sendOk(infos[j]) {
        if j > 0 {
          assert infos[j] == infos[1..][j - 1];
        }
      }
      if k < |infos| {
        assert infos[k] == infos[1..][rest];
      }
    }
  }

  /** The prompts of a prefix one longer than a prefix of the tail. */
  lemma PromptsPrefixCons(infos: seq<UnrecognizedDocumentInfo>, rest: nat, sent: seq<BotAction>)
    requires rest < |infos|
    ensures sent + [PromptFor(infos[0])] + Prompts(infos[1..][..rest]) == sent + Prompts(infos[..rest + 1])
  {
    assert infos[..rest + 1] == [infos[0]] + infos[1..][..rest];
    PromptsCons(infos[0], infos[1..][..rest]);
  }

  /** One document prompted and marked: the rest of the turn continues
      from the marked store. */
  lemma PromptDocumentsStep(name: string, infos: seq<UnrecognizedDocumentInfo>,
                            users: map<string, UserInfo>, sent: seq<BotAction>,
                            sendOk: UnrecognizedDocumentInfo -> bool, mandatory: seq<DocumentType>)
    returns (next: map<string, UserInfo>)
    requires infos != [] && sendOk(infos[0]) && name in users && users[name].documents.Some?
    ensures name in next && next[name].documents.Some?
    ensures PromptDocuments(name, infos, users, sent, sendOk, mandatory)
         == PromptDocuments(name, infos[1..], next, sent + [PromptFor(infos[0])], sendOk, mandatory)
  {
    next := users[name := RetypeEffect(users[name], infos[0].id, UNKNOWN_REQUESTED, mandatory)];
  }

  /** A user's turn writes only that user's record. */
  lemma {:induction false} PromptDocumentsTouchesOnlyOwner(name: string, infos: seq<UnrecognizedDocumentInfo>,
                                                            users: map<string, UserInfo>, sent: seq<BotAction>,
                                                            sendOk: UnrecognizedDocumentInfo -> bool,
                                                            mandatory: seq<DocumentType>)
    ensures var after := PromptDocuments(name, infos, users, sent, sendOk, mandatory).0;
      && after.Keys == users.Keys
      && (forall n :: n in users && n != name ==> after[n] == users[n])
      && (name in users ==> after[name].username == users[name].username && after[name].chatId == users[name].chatId)
  {
    if infos != [] && sendOk(infos[0]) && name in users && users[name].documents.Some? {
      var next := users[name := RetypeEffect(users[name], infos[0].id, UNKNOWN_REQUESTED, mandatory)];
      PromptDocumentsTouchesOnlyOwner(name, infos[1..], next, sent + [PromptFor(infos[0])], sendOk, mandatory);
    }
  }

  /** Once asked about, a document is no longer UNKNOWN and so is not
      offered again; the user's other unclassified documents stay. */
  lemma MarkedDocumentLeavesUnknown(u: UserInfo, id: string, mandatory: seq<DocumentType>)
    requires u.documents.Some?
    ensures var v := RetypeEffect(u, id, UNKNOWN_REQUESTED, mandatory);
      forall d :: d in UnknownDocuments(v.documents.value) <==> d in UnknownDocuments(u.documents.value) && d.id != id
  {
    var v := RetypeEffect(u, id, UNKNOWN_REQUESTED, mandatory);
    forall d ensures d in UnknownDocuments(v.documents.value) <==> d in UnknownDocuments(u.documents.value) && d.id != id {
      if d in v.documents.value && d.documentType == UNKNOWN {
        var i :| 0 <= i < |v.documents.value| && v.documents.value[i] == d;
        assert u.documents.value[i] == d;
      }
      if d in u.documents.value && d.documentType == UNKNOWN && d.id != id {
        var i :| 0 <= i < |u.documents.value| && u.documents.value[i] == d;
        assert v.documents.value[i] == d;
      }
    }
  }

  /** A tick over users none of whom has a document waiting sends nothing
      and writes nothing. */
  lemma {:induction false} NothingToPromptNothingSent(snapshots: seq<UserInfo>, users: map<string, UserInfo>,
                                                      sent: seq<BotAction>, sendOk: UnrecognizedDocumentInfo -> bool,
                                                      mandatory: seq<DocumentType>)
    requires forall i :: 0 <= i < |snapshots| ==> UnrecognizedOf(snapshots[i]) == []
    ensures ProcessUsers(snapshots, users, sent, sendOk, mandatory) == (users, sent)
  {
    if snapshots != [] {
      NothingToPromptNothingSent(snapshots[1..], users, sent, sendOk, mandatory);
    }
  }
}
