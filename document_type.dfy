/** The closed set of document categories: two sentinels for documents whose
    category is not known yet, and eight real categories. */
module Documents {
  import opened Wrappers

  datatype DocumentType =
    | UNKNOWN
    | UNKNOWN_REQUESTED
    | PASSPORT
    | WORK_BOOK
    | DIPLOMA
    | INN
    | SNILS
    | FORM_182
    | CARD_DATA
    | MILITARY_ID

  /** The constant's identifier, as Enum.name(). */
  function Name(t: DocumentType): string
  {
    match t
    case UNKNOWN => "UNKNOWN"
    case UNKNOWN_REQUESTED => "UNKNOWN_REQUESTED"
    case PASSPORT => "PASSPORT"
    case WORK_BOOK => "WORK_BOOK"
    case DIPLOMA => "DIPLOMA"
    case INN => "INN"
    case SNILS => "SNILS"
    case FORM_182 => "FORM_182"
    case CARD_DATA => "CARD_DATA"
    case MILITARY_ID => "MILITARY_ID"
  }

  /** The label shown on a classification button. */
  function Text(t: DocumentType): string
  {
    match t
    case UNKNOWN => "Unknown"
    case UNKNOWN_REQUESTED => "Unknown requested"
    case PASSPORT => "Passport"
    case WORK_BOOK => "Work book"
    case DIPLOMA => "Diploma"
    case INN => "INN"
    case SNILS => "Snils"
    case FORM_182 => "Form 182"
    case CARD_DATA => "Bank card data"
    case MILITARY_ID => "Military ID"
  }

  /** The cloud folder a document of this category is moved into. */
  function SubfolderName(t: DocumentType): string
  {
    match t
    case UNKNOWN => "unknown"
    case UNKNOWN_REQUESTED => "unknown_requested"
    case PASSPORT => "passport"
    case WORK_BOOK => "employment_id"
    case DIPLOMA => "diploma"
    case INN => "INN"
    case SNILS => "snils"
    case FORM_182 => "form_182"
    case CARD_DATA => "bankdata"
    case MILITARY_ID => "military_id"
  }

  /** Enum.valueOf: the constant with exactly this name, None where Java
      throws IllegalArgumentException. */
  function ValueOf(s: string): (r: Option<DocumentType>)
    ensures r.Some? ==> Name(r.value) == s
    ensures (exists t :: Name(t) == s) ==> r.Some?
  {
    if s == "UNKNOWN" then Some(UNKNOWN)
    else if s == "UNKNOWN_REQUESTED" then Some(UNKNOWN_REQUESTED)
    else if s == "PASSPORT" then Some(PASSPORT)
    else if s == "WORK_BOOK" then Some(WORK_BOOK)
    else if s == "DIPLOMA" then Some(DIPLOMA)
    else if s == "INN" then Some(INN)
    else if s == "SNILS" then Some(SNILS)
    else if s == "FORM_182" then Some(FORM_182)
    else if s == "CARD_DATA" then Some(CARD_DATA)
    else if s == "MILITARY_ID" then Some(MILITARY_ID)
    else None
  }

  predicate IsReal(t: DocumentType)
  {
    t != UNKNOWN && t != UNKNOWN_REQUESTED
  }

  /** realDocuments(): every category except the two sentinels, each once. */
  function RealDocuments(): (r: seq<DocumentType>)
    ensures |r| == 8
    ensures forall t :: t in r <==> IsReal(t)
    ensures forall i, j :: 0 <= i < j < |r| ==> r[i] != r[j]
  {
    [PASSPORT, WORK_BOOK, DIPLOMA, INN, SNILS, FORM_182, CARD_DATA, MILITARY_ID]
  }

  /** The categories whose presence makes a user "mandatory documents
      submitted"; the configuration must name real categories only. */
  predicate MandatoryIsReal(mandatory: seq<DocumentType>)
  {
    forall t :: t in mandatory ==> IsReal(t)
  }

  lemma RealDocumentsOrder()
    ensures RealDocuments() == [PASSPORT, WORK_BOOK, DIPLOMA, INN, SNILS, FORM_182, CARD_DATA, MILITARY_ID]
  {
  }

  lemma NameIsInjective(t: DocumentType, u: DocumentType)
    ensures Name(t) == Name(u) <==> t == u
  {
  }

  lemma ValueOfName(t: DocumentType)
    ensures ValueOf(Name(t)) == Some(t)
  {
  }

  lemma SubfolderNamesDistinct(t: DocumentType, u: DocumentType)
    ensures SubfolderName(t) == SubfolderName(u) <==> t == u
  {
  }

  /** The names that hold '_', the callback codec's field separator. */
  lemma NamesWithSeparator(t: DocumentType)
    ensures '_' in Name(t) <==> t in {UNKNOWN_REQUESTED, WORK_BOOK, FORM_182, CARD_DATA, MILITARY_ID}
  {
    match t
    case UNKNOWN_REQUESTED => assert Name(t)[7] == '_';
    case WORK_BOOK => assert Name(t)[4] == '_';
    case FORM_182 => assert Name(t)[4] == '_';
    case CARD_DATA => assert Name(t)[4] == '_';
    case MILITARY_ID => assert Name(t)[8] == '_';
    case _ =>
  }
}
