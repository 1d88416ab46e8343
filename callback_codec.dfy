/** The text form of a classification choice: category (or "delete"), the
    stored document's id and the cloud file id, joined with '_'. */
module CallbackCodec {
  import opened Wrappers
  import opened JavaStrings
  import opened Documents

  const SEPARATOR: char := '_'
  const DELETE: string := "delete"

  /** documentType None stands for Java's null, used with deleteRequested. */
  datatype RecognizeDocumentCallbackData = RecognizeDocumentCallbackData(
    documentType: Option<DocumentType>,
    deleteRequested: bool,
    documentId: string,
    cloudDocumentId: string)

  /** The first field: "delete", or the type's name (a null type throws). */
  function Head(x: RecognizeDocumentCallbackData): string
    requires x.deleteRequested || x.documentType.Some?
  {
    if x.deleteRequested then DELETE else Name(x.documentType.value)
  }

  function Serialize(x: RecognizeDocumentCallbackData): string
    requires x.deleteRequested || x.documentType.Some?
  {
    Head(x) + "_" + x.documentId + "_" + x.cloudDocumentId
  }

  /** The wire form, field by field. */
  lemma {:induction false} FieldsOfSerialize(x: RecognizeDocumentCallbackData)
    requires x.deleteRequested || x.documentType.Some?
    requires SEPARATOR !in x.documentId && SEPARATOR !in x.cloudDocumentId
    ensures SplitAll(Serialize(x), SEPARATOR) == SplitAll(Head(x), SEPARATOR) + [x.documentId, x.cloudDocumentId]
    ensures SEPARATOR in Serialize(x)
  {
    var s := Serialize(x);
    assert s == Head(x) + [SEPARATOR] + (x.documentId + [SEPARATOR] + x.cloudDocumentId);
    assert s[|Head(x)|] == SEPARATOR;
    SplitAllConcat(Head(x), x.documentId + [SEPARATOR] + x.cloudDocumentId, SEPARATOR);
    SplitAllConcat(x.documentId, x.cloudDocumentId, SEPARATOR);
    SplitAllNoSeparator(x.documentId, SEPARATOR);
    SplitAllNoSeparator(x.cloudDocumentId, SEPARATOR);
  }

  /** The three-field reading of an already split callback; None for every
      case in which Java throws (too few fields, an unknown first field). */
  function FromParts(parts: seq<string>): Option<RecognizeDocumentCallbackData>
  {
    if |parts| == 0 then None
    else if parts[0] == DELETE then
      if |parts| < 3 then None
      else Some(RecognizeDocumentCallbackData(None, true, parts[1], parts[2]))
    else
      match ValueOf(parts[0])
      case None => None
      case Some(t) =>
        if |parts| < 3 then None
        else Some(RecognizeDocumentCallbackData(Some(t), false, parts[1], parts[2]))
  }

  /** deserialize: exceptions are caught and turned into null (None). */
  function Deserialize(callback: string): Option<RecognizeDocumentCallbackData>
  {
    FromParts(JavaSplit(callback, SEPARATOR))
  }

  /** A value the wire form can carry: ids free of '_', a non-empty cloud id
      (an empty last field would be dropped by split), and a first field
      that is "delete" with no type or a type name without '_'. */
  predicate RoundTrips(x: RecognizeDocumentCallbackData)
  {
    && SEPARATOR !in x.documentId
    && SEPARATOR !in x.cloudDocumentId
    && x.cloudDocumentId != ""
    && (if x.deleteRequested then x.documentType.None?
        else x.documentType.Some? && SEPARATOR !in Name(x.documentType.value))
  }

  lemma {:induction false} DeserializeSerialize(x: RecognizeDocumentCallbackData)
    requires RoundTrips(x)
    ensures Deserialize(Serialize(x)) == Some(x)
  {
    FieldsOfSerialize(x);
    SplitAllNoSeparator(Head(x), SEPARATOR);
    var parts := [Head(x), x.documentId, x.cloudDocumentId];
    assert DropTrailingEmpty(parts) == parts;
    assert JavaSplit(Serialize(x), SEPARATOR) == parts;
    if !x.deleteRequested {
      ValueOfName(x.documentType.value);
    }
  }

  /** The defect: a non-delete value whose type name contains '_' never
      survives the trip, whatever its ids. */
  lemma {:induction false} SerializeWithSeparatorInName(x: RecognizeDocumentCallbackData)
    requires !x.deleteRequested && x.documentType.Some?
    requires SEPARATOR in Name(x.documentType.value)
    ensures Deserialize(Serialize(x)) != Some(x)
  {
    var t := x.documentType.value;
    NamesWithSeparator(t);
    var rest := x.documentId + "_" + x.cloudDocumentId;
    var head, tail := FirstWord(t);
    assert Name(t) == head + "_" + tail;
    assert Serialize(x) == head + [SEPARATOR] + (tail + "_" + rest);
    JavaSplitHead(head, tail + "_" + rest, SEPARATOR);
    var parts := JavaSplit(Serialize(x), SEPARATOR);
    if t == UNKNOWN_REQUESTED {
      assert parts[0] == "UNKNOWN";
    } else {
      assert ValueOf(parts[0]) == None;
    }
  }

  /** The text of a name up to its first '_' and after it. */
  lemma FirstWord(t: DocumentType) returns (head: string, tail: string)
    requires t in {UNKNOWN_REQUESTED, WORK_BOOK, FORM_182, CARD_DATA, MILITARY_ID}
    ensures Name(t) == head + "_" + tail && head != "" && SEPARATOR !in head && SEPARATOR !in tail
    ensures t == UNKNOWN_REQUESTED ==> head == "UNKNOWN" && tail == "REQUESTED"
    ensures t != UNKNOWN_REQUESTED ==> ValueOf(head) == None
  {
    match t
    case UNKNOWN_REQUESTED => head, tail := "UNKNOWN", "REQUESTED";
    case WORK_BOOK => head, tail := "WORK", "BOOK";
    case FORM_182 => head, tail := "FORM", "182";
    case CARD_DATA => head, tail := "CARD", "DATA";
    case MILITARY_ID => head, tail := "MILITARY", "ID";
  }

  /** Every real category whose name contains '_' deserializes to null. */
  lemma {:induction false} RealTypeWithSeparatorIsLost(x: RecognizeDocumentCallbackData)
    requires !x.deleteRequested && x.documentType.Some?
    requires x.documentType.value in {WORK_BOOK, FORM_182, CARD_DATA, MILITARY_ID}
    ensures Deserialize(Serialize(x)) == None
  {
    var t := x.documentType.value;
    var head, tail := FirstWord(t);
    var rest := x.documentId + "_" + x.cloudDocumentId;
    assert Serialize(x) == head + [SEPARATOR] + (tail + "_" + rest);
    JavaSplitHead(head, tail + "_" + rest, SEPARATOR);
  }

  /** UNKNOWN_REQUESTED is misread as UNKNOWN with document id "REQUESTED". */
  lemma {:induction false} UnknownRequestedMisread(documentId: string, cloudDocumentId: string)
    requires SEPARATOR !in documentId && SEPARATOR !in cloudDocumentId && cloudDocumentId != ""
    ensures Deserialize(Serialize(RecognizeDocumentCallbackData(Some(UNKNOWN_REQUESTED), false, documentId, cloudDocumentId)))
         == Some(RecognizeDocumentCallbackData(Some(UNKNOWN), false, "REQUESTED", documentId))
  {
    var x := RecognizeDocumentCallbackData(Some(UNKNOWN_REQUESTED), false, documentId, cloudDocumentId);
    FieldsOfSerialize(x);
    var head, tail := FirstWord(UNKNOWN_REQUESTED);
    assert Head(x) == head + [SEPARATOR] + tail;
    SplitAllConcat(head, tail, SEPARATOR);
    SplitAllNoSeparator(head, SEPARATOR);
    SplitAllNoSeparator(tail, SEPARATOR);
    var parts := [head, tail, documentId, cloudDocumentId];
    assert SplitAll(Serialize(x), SEPARATOR) == parts;
    assert DropTrailingEmpty(parts) == parts;
    assert JavaSplit(Serialize(x), SEPARATOR) == parts;
    assert head != DELETE;
    assert ValueOf(head) == Some(UNKNOWN);
  }

  /** A callback whose split has fewer than three fields is refused. */
  lemma TooFewFields(callback: string)
    requires |JavaSplit(callback, SEPARATOR)| < 3
    ensures Deserialize(callback) == None
  {
  }

  /** A delete callback with an empty cloud id, such as "delete_a_", loses
      its empty last field to split and is refused. */
  lemma {:induction false} TrailingEmptyFieldDropped(documentId: string)
    requires SEPARATOR !in documentId
    ensures Deserialize(DELETE + "_" + documentId + "_") == None
  {
    var x := RecognizeDocumentCallbackData(None, true, documentId, "");
    FieldsOfSerialize(x);
    SplitAllNoSeparator(DELETE, SEPARATOR);
    assert Serialize(x) == DELETE + "_" + documentId + "_";
    var fields := [DELETE, documentId, ""];
    assert SplitAll(Serialize(x), SEPARATOR) == fields;
    var kept := DropTrailingEmpty(fields);
    assert |kept| < 3;
  }

  /** Only the first three fields are read; later ones are ignored. */
  lemma ExtraFieldsIgnored(parts: seq<string>)
    requires |parts| >= 3
    ensures FromParts(parts) == FromParts(parts[..3])
  {
  }

  // ---------------------------------------------------------------------
  // Corrected reading: the two ids are the last two fields, everything
  // before them (with its '_') is the first field.

  function DeserializeFromEnd(callback: string): (r: Option<RecognizeDocumentCallbackData>)
    ensures r.Some? ==> (r.value.deleteRequested <==> r.value.documentType.None?)
  {
    var fields := SplitAll(callback, SEPARATOR);
    if |fields| < 3 then None
    else
      var head := Join(fields[..|fields| - 2], SEPARATOR);
      var documentId := fields[|fields| - 2];
      var cloudDocumentId := fields[|fields| - 1];
      if head == DELETE then Some(RecognizeDocumentCallbackData(None, true, documentId, cloudDocumentId))
      else
        match ValueOf(head)
        case None => None
        case Some(t) => Some(RecognizeDocumentCallbackData(Some(t), false, documentId, cloudDocumentId))
  }

  /** The serialized form read from the end: the last two fields are the
      ids and the fields before them join back into the head. */
  lemma LastTwoFields(x: RecognizeDocumentCallbackData)
    requires x.deleteRequested || x.documentType.Some?
    requires SEPARATOR !in x.documentId && SEPARATOR !in x.cloudDocumentId
    ensures var fields := SplitAll(Serialize(x), SEPARATOR);
      && |fields| >= 3
      && Join(fields[..|fields| - 2], SEPARATOR) == Head(x)
      && fields[|fields| - 2] == x.documentId
      && fields[|fields| - 1] == x.cloudDocumentId
  {
    FieldsOfSerialize(x);
    var fields := SplitAll(Serialize(x), SEPARATOR);
    var headFields := SplitAll(Head(x), SEPARATOR);
    assert fields == headFields + [x.documentId, x.cloudDocumentId];
    assert fields[..|fields| - 2] == headFields;
    JoinSplitAll(Head(x), SEPARATOR);
  }

  /** No constant is named "delete". */
  lemma NameIsNotDelete(t: DocumentType)
    ensures Name(t) != DELETE
  {
    assert Name(t)[0] != 'd';
  }

  /** The round trip holds for every category, the four with '_' included,
      and for an empty cloud id; only the ids must be free of '_'. */
  lemma {:induction false} DeserializeFromEndSerialize(x: RecognizeDocumentCallbackData)
    requires SEPARATOR !in x.documentId && SEPARATOR !in x.cloudDocumentId
    requires x.deleteRequested <==> x.documentType.None?
    ensures DeserializeFromEnd(Serialize(x)) == Some(x)
  {
    LastTwoFields(x);
    if !x.deleteRequested {
      NameIsNotDelete(x.documentType.value);
      ValueOfName(x.documentType.value);
    }
  }
}
