/**
 * The read side of `ReadyDocsService`: the doc-type number maps and the
 * document queries, which run over the fallback document list.
 */
module ReadyDocs {
  import opened Opt
  import opened Seqs
  import opened Text
  import opened Types
  import DummyData

  /** `getDocTypeValue`: the service's own key-to-number table. */
  function GetDocTypeValue(docType: DocType): (v: nat)
    ensures v <= 4
  {
    match docType
    case Other => 0
    case Pleading => 1
    case Judgment => 2
    case Contract => 3
    case Evidence => 4
  }

  /** `getDocTypeKey`: the number-to-key table, where a number outside it falls back to `Other`. */
  function GetDocTypeKey(docTypeValue: int): (k: DocType)
    ensures !(0 <= docTypeValue <= 4) ==> k == Other
  {
    if docTypeValue == 0 then Other
    else if docTypeValue == 1 then Pleading
    else if docTypeValue == 2 then Judgment
    else if docTypeValue == 3 then Contract
    else if docTypeValue == 4 then Evidence
    else Other
  }

  /** The service's table agrees with the numbering of the `DocType` enum. */
  lemma DocTypeValueIsEnumCode(docType: DocType)
    ensures GetDocTypeValue(docType) == docType.Code()
  {
  }

  /** The two tables are inverse: key to number and back gives the key, number 0..4 to key and back gives the number. */
  lemma DocTypeRoundTrip(docType: DocType, v: int)
    ensures GetDocTypeKey(GetDocTypeValue(docType)) == docType
    ensures 0 <= v <= 4 ==> GetDocTypeValue(GetDocTypeKey(v)) == v
  {
  }

  /** `getAllDocuments`: the fallback documents. */
  function GetAllDocuments(loadTime: int): (r: seq<LegalDocument>)
    ensures r == DummyData.DummyDocuments(loadTime)
    ensures forall i, j :: 0 <= i < j < |r| ==> r[i].id != r[j].id
  {
    DummyData.DummyDocuments(loadTime)
  }

  /** `getDocumentById`: the first document with that id, or null. */
  function DocumentById(documents: seq<LegalDocument>, docId: string): (r: Option<LegalDocument>)
    ensures FirstMatch(r, documents, (d: LegalDocument) => d.id == docId)
  {
    Find(documents, (d: LegalDocument) => d.id == docId)
  }

  /** `getDocumentsByCaseId`: the documents filed under that case; a document with no case is never selected. */
  function DocumentsByCaseId(documents: seq<LegalDocument>, caseId: string): (r: seq<LegalDocument>)
    ensures Selects(r, documents, (d: LegalDocument) => d.caseId == Some(caseId))
  {
    Filter(documents, (d: LegalDocument) => d.caseId == Some(caseId))
  }

  /** The search condition: the query in the title, the content or any tag, ignoring case. */
  predicate DocumentMatches(d: LegalDocument, query: string) {
    MatchesIgnoringCase(d.title, query) || MatchesIgnoringCase(d.content, query) ||
    AnyMatchesIgnoringCase(d.tags, query)
  }

  /** `searchDocuments`. */
  function SearchDocuments(documents: seq<LegalDocument>, query: string): (r: seq<LegalDocument>)
    ensures Selects(r, documents, (d: LegalDocument) => DocumentMatches(d, query))
  {
    Filter(documents, (d: LegalDocument) => DocumentMatches(d, query))
  }

  /** The empty query finds every document. */
  lemma SearchDocumentsEmptyQuery(documents: seq<LegalDocument>)
    ensures SearchDocuments(documents, "") == documents
  {
    forall d | d in documents ensures DocumentMatches(d, "") {
      EmptyQueryMatches(d.title);
    }
    FilterAll(documents, (d: LegalDocument) => DocumentMatches(d, ""));
  }

  /** On the fallback data each case id finds exactly its one document. */
  lemma FallbackDocumentsByCase(loadTime: int)
    ensures DocumentsByCaseId(GetAllDocuments(loadTime), "case1") == [GetAllDocuments(loadTime)[0]]
    ensures DocumentsByCaseId(GetAllDocuments(loadTime), "case2") == [GetAllDocuments(loadTime)[1]]
  {
    var docs := GetAllDocuments(loadTime);
    assert docs[1..][1..] == [];
  }
}
