/** The memory explorer: loads the knowledge-base dump, filters it by a
    case-insensitive search term, classifies each document's source for its
    icon and counts documents and emails for the summary cards. */
module KnowledgeExplorer {
  import Text
  import Seqs
  import opened Wrappers

  /** Document metadata; every field may be missing. `kind` is the JSON `type` field. */
  datatype Metadata = Metadata(title: Option<string>, source: Option<string>, kind: Option<string>)

  datatype Document = Document(id: Option<string>, preview: Option<string>, metadata: Option<Metadata>)

  /** What the dump request resolved with: a JSON array of documents, or anything else. */
  datatype DumpPayload = DocumentList(docs: seq<Document>) | NotAList

  const LoadError: string := "Failed to load knowledge base"

  /** `doc.metadata?.title` */
  function TitleOf(d: Document): Option<string>
  {
    if d.metadata.Some? then d.metadata.value.title else None
  }

  /** `doc.metadata?.source` */
  function SourceOf(d: Document): Option<string>
  {
    if d.metadata.Some? then d.metadata.value.source else None
  }

  /** `field?.toLowerCase().includes(term.toLowerCase())`: an absent field never matches. */
  predicate FieldMatches(field: Option<string>, term: string)
  {
    field.Some? && Text.Contains(Text.Lower(field.value), Text.Lower(term))
  }

  /** The filter's test: the preview, the title or the source contains the term. */
  predicate Matches(d: Document, term: string)
  {
    FieldMatches(d.preview, term) || FieldMatches(TitleOf(d), term) || FieldMatches(SourceOf(d), term)
  }

  /** At least one of the three searched fields is present. */
  predicate HasSearchableField(d: Document)
  {
    d.preview.Some? || TitleOf(d).Some? || SourceOf(d).Some?
  }

  /** `filteredDocs`: the documents that match, in their original order. */
  function FilteredDocs(docs: seq<Document>, term: string): (r: seq<Document>)
    ensures Seqs.IsSubsequence(r, docs)
    ensures forall d :: d in r <==> d in docs && Matches(d, term)
    ensures forall d :: multiset(r)[d] == if Matches(d, term) then multiset(docs)[d] else 0
    decreases |docs|
  {
    if docs == [] then []
    else
      assert docs == [docs[0]] + docs[1..];
      if Matches(docs[0], term) then [docs[0]] + FilteredDocs(docs[1..], term)
      else FilteredDocs(docs[1..], term)
  }

  /** Matching ignores case: two terms that lower-case alike select the same
      documents; in particular a term and its lower-cased form do. */
  lemma {:induction false} FilterIgnoresCase(docs: seq<Document>, t1: string, t2: string)
    requires Text.Lower(t1) == Text.Lower(t2)
    ensures FilteredDocs(docs, t1) == FilteredDocs(docs, t2)
    ensures FilteredDocs(docs, Text.Lower(t1)) == FilteredDocs(docs, t1)
    decreases |docs|
  {
    Text.LowerIdempotent(t1);
    if docs != [] {
      FilterIgnoresCase(docs[1..], t1, t2);
    }
  }

  /** The empty term keeps exactly the documents with at least one searchable
      field present. */
  lemma EmptyTermKeepsSearchable(docs: seq<Document>)
    ensures forall d :: d in FilteredDocs(docs, "") <==> d in docs && HasSearchableField(d)
  {
    assert Text.Lower("") == "";
    forall d | d in docs ensures Matches(d, "") <==> HasSearchableField(d) {
      if d.preview.Some? { Text.ContainsEmpty(Text.Lower(d.preview.value)); }
      if TitleOf(d).Some? { Text.ContainsEmpty(Text.Lower(TitleOf(d).value)); }
      if SourceOf(d).Some? { Text.ContainsEmpty(Text.Lower(SourceOf(d).value)); }
    }
  }

  datatype SourceIcon = DocsIcon | MailIcon | SheetsIcon | GenericIcon

  predicate IsDocsSource(meta: Option<Metadata>)
  {
    meta.Some? && (meta.value.kind == Some("google_doc") || meta.value.source == Some("docs"))
  }

  predicate IsMailSource(meta: Option<Metadata>)
  {
    meta.Some? && (meta.value.kind == Some("gmail") || meta.value.source == Some("mail"))
  }

  predicate IsSheetsSource(meta: Option<Metadata>)
  {
    meta.Some? && (meta.value.kind == Some("google_sheet") || meta.value.source == Some("sheets"))
  }

  /** `getSourceIcon`: docs first, then mail, then sheets, then the generic icon. */
  function GetSourceIcon(meta: Option<Metadata>): (r: SourceIcon)
    ensures r == DocsIcon <==> IsDocsSource(meta)
    ensures r == MailIcon <==> !IsDocsSource(meta) && IsMailSource(meta)
    ensures r == SheetsIcon <==> !IsDocsSource(meta) && !IsMailSource(meta) && IsSheetsSource(meta)
    ensures r == GenericIcon <==> !IsDocsSource(meta) && !IsMailSource(meta) && !IsSheetsSource(meta)
    ensures meta.None? ==> r == GenericIcon
  {
    if IsDocsSource(meta) then DocsIcon
    else if IsMailSource(meta) then MailIcon
    else if IsSheetsSource(meta) then SheetsIcon
    else GenericIcon
  }

  /** `d.metadata?.source?.includes(word)`, case-sensitive. */
  predicate SourceContains(d: Document, word: string)
  {
    SourceOf(d).Some? && Text.Contains(SourceOf(d).value, word)
  }

  /** The "Documents" (word "doc") and "Emails" (word "mail") card counts. */
  function CountSourceContaining(docs: seq<Document>, word: string): (n: nat)
    ensures n <= |docs|
    ensures n == 0 <==> forall d :: d in docs ==> !SourceContains(d, word)
    ensures n == |docs| <==> forall d :: d in docs ==> SourceContains(d, word)
    decreases |docs|
  {
    if docs == [] then 0
    else (if SourceContains(docs[0], word) then 1 else 0) + CountSourceContaining(docs[1..], word)
  }

  /** The count over two lists put together is the sum of their counts; with
      the one-document cases of the contract above, this fixes the count as the
      number of documents whose source contains the word. */
  lemma {:induction false} CountConcat(a: seq<Document>, b: seq<Document>, word: string)
    ensures CountSourceContaining(a + b, word) == CountSourceContaining(a, word) + CountSourceContaining(b, word)
    decreases |a|
  {
    if a == [] {
      assert a + b == b;
    } else {
      CountConcat(a[1..], b, word);
      assert (a + b)[0] == a[0] && (a + b)[1..] == a[1..] + b;
    }
  }

  /** The card title: `title`, else `id`, else "Untitled"; empty strings count as missing. */
  function DisplayTitle(d: Document): (r: string)
    ensures r != ""
    ensures TitleOf(d).Some? && TitleOf(d).value != "" ==> r == TitleOf(d).value
    ensures !(TitleOf(d).Some? && TitleOf(d).value != "") && d.id.Some? && d.id.value != "" ==> r == d.id.value
    ensures !(TitleOf(d).Some? && TitleOf(d).value != "") && !(d.id.Some? && d.id.value != "") ==> r == "Untitled"
  {
    if TitleOf(d).Some? && TitleOf(d).value != "" then TitleOf(d).value
    else if d.id.Some? && d.id.value != "" then d.id.value
    else "Untitled"
  }

  /** The explorer's state. */
  class Explorer {
    var documents: seq<Document>
    var loading: bool
    var error: Option<string>
    var searchTerm: string

    constructor ()
      ensures documents == [] && loading && error == None && searchTerm == ""
    {
      documents := [];
      loading := true;
      error := None;
      searchTerm := "";
    }

    method SetSearchTerm(term: string)
      modifies this`searchTerm
      ensures searchTerm == term
    {
      searchTerm := term;
    }

    /** `loadDocuments`, with the dump request's settlement as input: an array
        replaces the documents and clears the error, any other payload empties
        the list, a failure keeps the documents and sets the error; loading
        always ends. */
    method LoadDocuments(outcome: Outcome<DumpPayload>)
      modifies this`documents, this`loading, this`error
      ensures outcome.Resolved? ==>
        error == None && documents == (match outcome.payload case DocumentList(docs) => docs case NotAList => [])
      ensures outcome.Rejected? ==> documents == old(documents) && error == Some(LoadError)
      ensures !loading
    {
      loading := true;
      match outcome {
        case Resolved(payload) =>
          documents := match payload case DocumentList(docs) => docs case NotAList => [];
          error := None;
        case Rejected =>
          error := Some(LoadError);
      }
      loading := false;
    }

    /** The documents shown under the search bar. */
    function Shown(): (r: seq<Document>)
      reads this
      ensures r == FilteredDocs(documents, searchTerm)
      ensures Seqs.IsSubsequence(r, documents)
      ensures |r| <= |documents|
    {
      var r := FilteredDocs(documents, searchTerm);
      Seqs.SubsequenceFacts(r, documents);
      r
    }
  }
}
