/** Python_WebSocket/upload_to_pinecone.py: turning question/answer entries
    into documents for the vector index, and uploading them in batches. The
    sentence encoder is a parameter (`embed`), and the upsert of one batch is
    recorded as an element of the returned sequence of batches. */
module UploadToPinecone {
  import opened Text
  import Seqs

  /** One question/answer entry as loaded from the data files; a missing key is "". */
  datatype QaEntry = QaEntry(
    focus: string, source: string, url: string, question: string, answer: string,
    qtype: string, qid: string, documentId: string, pid: string)

  datatype Metadata = Metadata(
    source: string, url: string, focus: string, qtype: string, qid: string,
    documentId: string, text: string)

  datatype Document = Document(id: string, text: string, metadata: Metadata)

  /** An upserted vector: the document's id and metadata with its embedding. */
  datatype Vector = Vector(id: string, values: seq<real>, metadata: Metadata)

  /** Entries whose answer is empty or only whitespace are skipped (upload_to_pinecone.py:31-33). */
  predicate HasAnswer(q: QaEntry) {
    Strip(Python, q.answer) != ""
  }

  /** The text that is embedded (upload_to_pinecone.py:36). */
  function DocumentText(q: QaEntry): string {
    "Focus: " + q.focus + "\nQuestion: " + q.question + "\nAnswer: " + q.answer
  }

  /** The document id: the question id, else the document id and the pair id (upload_to_pinecone.py:50). */
  function DocumentId(q: QaEntry): string {
    if q.qid != "" then q.qid else q.documentId + "_" + q.pid
  }

  /** The document prepare_documents builds for an entry it keeps (upload_to_pinecone.py:36-53). */
  function DocumentOf(q: QaEntry): Document {
    var text := DocumentText(q);
    Document(DocumentId(q), text, Metadata(q.source, q.url, q.focus, q.qtype, q.qid, q.documentId, text))
  }

  /** A document's metadata repeats its text and the entry's fields, and its id
      is the question id when there is one, else document id "_" pair id. */
  lemma DocumentOfFields(q: QaEntry)
    ensures var d := DocumentOf(q);
      && d.text == DocumentText(q) && d.metadata.text == d.text
      && (q.qid != "" ==> d.id == q.qid)
      && (q.qid == "" ==> d.id == q.documentId + "_" + q.pid)
      && d.metadata == Metadata(q.source, q.url, q.focus, q.qtype, q.qid, q.documentId, d.text)
  {
  }

  /** "Focus: ", "Question: " and "Answer: " hold no line break. */
  lemma LabelsHaveNoLineBreak()
    ensures NoLineBreak("Focus: ") && NoLineBreak("Question: ") && NoLineBreak("Answer: ")
  {
  }

  lemma {:induction false} ConcatNoLineBreak(a: string, b: string)
    requires NoLineBreak(a) && NoLineBreak(b)
    ensures NoLineBreak(a + b)
  {
    assert forall i :: 0 <= i < |a + b| ==> (a + b)[i] == if i < |a| then a[i] else b[i - |a|];
  }

  /** When no field holds a line break, the text has exactly three lines, one per
      labelled field, so each field can be read back from its line. */
  lemma {:induction false} DocumentTextLines(q: QaEntry)
    requires NoLineBreak(q.focus) && NoLineBreak(q.question) && NoLineBreak(q.answer)
    ensures Lines(DocumentText(q)) == ["Focus: " + q.focus, "Question: " + q.question, "Answer: " + q.answer]
  {
    var ls := ["Focus: " + q.focus, "Question: " + q.question, "Answer: " + q.answer];
    LabelsHaveNoLineBreak();
    ConcatNoLineBreak("Focus: ", q.focus);
    ConcatNoLineBreak("Question: ", q.question);
    ConcatNoLineBreak("Answer: ", q.answer);
    assert ls[1..][1..] == [ls[2]];
    assert Seqs.Join(ls, "\n") == ls[0] + "\n" + (ls[1] + "\n" + ls[2]);
    assert DocumentText(q) == Seqs.Join(ls, "\n");
    LinesOfJoin(ls);
  }

  /** What prepare_documents returns: one document per entry with an answer. */
  function Prepared(data: seq<QaEntry>): seq<Document> {
    Seqs.MapFilter(HasAnswer, DocumentOf, data)
  }

  /** prepare_documents keeps exactly the entries with an answer, in input order,
      one document per kept entry. */
  lemma PreparedAreKeptEntries(data: seq<QaEntry>)
    ensures var kept := Seqs.Filter(HasAnswer, data);
      && Seqs.IsSubsequence(kept, data)
      && |Prepared(data)| == |kept| <= |data|
      && forall k :: 0 <= k < |kept| ==> Prepared(data)[k] == DocumentOf(kept[k])
  {
    Seqs.FilterIsSubsequence(HasAnswer, data);
    Seqs.MapFilterPointwise(HasAnswer, DocumentOf, data);
  }

  /** prepare_documents (upload_to_pinecone.py:18-55). */
  method PrepareDocuments(data: seq<QaEntry>) returns (documents: seq<Document>)
    ensures documents == Prepared(data)
  {
    documents := [];
    var i := 0;
    while i < |data|
      invariant 0 <= i <= |data|
      invariant documents == Prepared(data[..i])
    {
      var qa := data[i];
      assert data[..i + 1][..i] == data[..i];
      if Strip(Python, qa.answer) != "" {
        var text := "Focus: " + qa.focus + "\nQuestion: " + qa.question + "\nAnswer: " + qa.answer;
        var metadata := Metadata(qa.source, qa.url, qa.focus, qa.qtype, qa.qid, qa.documentId, text);
        var id := if qa.qid != "" then qa.qid else qa.documentId + "_" + qa.pid;
        documents := documents + [Document(id, text, metadata)];
      }
      i := i + 1;
    }
    assert data[..i] == data;
  }

  /** The vectors for a run of documents: each carries its document's id and
      metadata and the embedding of its text. */
  function VectorsOf(docs: seq<Document>, embed: string -> seq<real>): (r: seq<Vector>)
    ensures |r| == |docs|
    ensures forall i :: 0 <= i < |docs| ==>
      r[i].id == docs[i].id && r[i].metadata == docs[i].metadata && r[i].values == embed(docs[i].text)
  {
    seq(|docs|, i requires 0 <= i < |docs| => Vector(docs[i].id, embed(docs[i].text), docs[i].metadata))
  }

  /** Consecutive runs of documents give consecutive runs of vectors. */
  lemma VectorsOfAppend(a: seq<Document>, b: seq<Document>, embed: string -> seq<real>)
    ensures VectorsOf(a + b, embed) == VectorsOf(a, embed) + VectorsOf(b, embed)
  {
    assert forall i :: 0 <= i < |a| + |b| ==> (a + b)[i] == if i < |a| then a[i] else b[i - |a|];
  }

  /** The batches one after the other. */
  function Concat<T>(batches: seq<seq<T>>): (r: seq<T>)
    ensures batches == [] ==> r == []
  {
    if batches == [] then [] else Concat(batches[..|batches| - 1]) + batches[|batches| - 1]
  }

  function Min(a: int, b: int): int {
    if a <= b then a else b
  }

  lemma NextOffset(k: nat, size: nat)
    ensures (k + 1) * size == k * size + size
  {
  }

  /** The k-th batch of documents: the slice starting at k * size of at most size documents (upload_to_pinecone.py:63-64). */
  function BatchAt(documents: seq<Document>, size: nat, k: nat): seq<Document>
    requires size > 0 && k * size < |documents|
  {
    documents[k * size .. Min(k * size + size, |documents|)]
  }

  /** The vectors of one batch (upload_to_pinecone.py:65-76): the texts are
      embedded and each document gives one vector with its id and metadata. */
  method BatchVectors(batchDocs: seq<Document>, embed: string -> seq<real>) returns (vectors: seq<Vector>)
    ensures vectors == VectorsOf(batchDocs, embed)
  {
    var texts := seq(|batchDocs|, t requires 0 <= t < |batchDocs| => batchDocs[t].text);
    var embeddings := seq(|texts|, t requires 0 <= t < |texts| => embed(texts[t]));
    vectors := [];
    var j := 0;
    while j < |batchDocs|
      invariant 0 <= j <= |batchDocs|
      invariant vectors == VectorsOf(batchDocs[..j], embed)
    {
      var doc := batchDocs[j];
      vectors := vectors + [Vector(doc.id, embeddings[j], doc.metadata)];
      j := j + 1;
    }
    assert batchDocs[..j] == batchDocs;
  }

  /** The upserts after the batches that start below offset `i`: each is the
      k-th slice of the documents, all but the last are full, and together
      they are the vectors of the first `i` documents (all of them once `i`
      passes the end). */
  ghost predicate UploadedUpTo(documents: seq<Document>, size: nat, embed: string -> seq<real>,
                               upserts: seq<seq<Vector>>, i: nat)
  {
    && size > 0 && i == |upserts| * size
    && Concat(upserts) == VectorsOf(documents[..Min(i, |documents|)], embed)
    && BatchSizes(upserts, size, i < |documents|)
    && Slices(documents, size, embed, upserts)
  }

  /** Every batch holds 1 to `size` vectors, all but the last (and the last too while `full`) exactly `size`. */
  ghost predicate BatchSizes(upserts: seq<seq<Vector>>, size: nat, full: bool) {
    && (forall k :: 0 <= k < |upserts| ==> 0 < |upserts[k]| <= size)
    && (forall k :: 0 <= k < |upserts| - 1 ==> |upserts[k]| == size)
    && (full && upserts != [] ==> |upserts[|upserts| - 1]| == size)
  }

  /** The k-th batch holds the vectors of the k-th slice. */
  ghost predicate Slices(documents: seq<Document>, size: nat, embed: string -> seq<real>, upserts: seq<seq<Vector>>)
    requires size > 0
  {
    forall k: nat :: k < |upserts| ==>
      k * size < |documents| && upserts[k] == VectorsOf(BatchAt(documents, size, k), embed)
  }

  lemma StepConcat(documents: seq<Document>, size: nat, embed: string -> seq<real>,
                   upserts: seq<seq<Vector>>, i: nat, vectors: seq<Vector>)
    requires size > 0 && i < |documents|
    requires Concat(upserts) == VectorsOf(documents[..i], embed)
    requires vectors == VectorsOf(documents[i..Min(i + size, |documents|)], embed)
    ensures Concat(upserts + [vectors]) == VectorsOf(documents[..Min(i + size, |documents|)], embed)
  {
    var end := Min(i + size, |documents|);
    VectorsOfAppend(documents[..i], documents[i..end], embed);
    assert documents[..i] + documents[i..end] == documents[..end];
    assert (upserts + [vectors])[..|upserts|] == upserts;
  }

  lemma StepSizes(upserts: seq<seq<Vector>>, size: nat, i: nat, n: nat, vectors: seq<Vector>)
    requires i < n && size > 0 && BatchSizes(upserts, size, true)
    requires |vectors| == Min(i + size, n) - i
    ensures BatchSizes(upserts + [vectors], size, i + size < n)
  {
    var next := upserts + [vectors];
    assert forall k :: 0 <= k < |upserts| ==> next[k] == upserts[k];
  }

  lemma StepSlices(documents: seq<Document>, size: nat, embed: string -> seq<real>,
                   upserts: seq<seq<Vector>>, i: nat, vectors: seq<Vector>)
    requires size > 0 && i == |upserts| * size && i < |documents|
    requires Slices(documents, size, embed, upserts)
    requires vectors == VectorsOf(documents[i..Min(i + size, |documents|)], embed)
    ensures Slices(documents, size, embed, upserts + [vectors])
  {
    var next := upserts + [vectors];
    assert documents[i..Min(i + size, |documents|)] == BatchAt(documents, size, |upserts|);
    assert forall k :: 0 <= k < |upserts| ==> next[k] == upserts[k];
  }

  /** Upserting the slice that starts at `i` extends the upserts to offset `i + size`. */
  lemma UploadStep(documents: seq<Document>, size: nat, embed: string -> seq<real>,
                   upserts: seq<seq<Vector>>, i: nat, vectors: seq<Vector>)
    requires UploadedUpTo(documents, size, embed, upserts, i) && i < |documents|
    requires vectors == VectorsOf(documents[i..Min(i + size, |documents|)], embed)
    ensures UploadedUpTo(documents, size, embed, upserts + [vectors], i + size)
  {
    StepConcat(documents, size, embed, upserts, i, vectors);
    StepSizes(upserts, size, i, |documents|, vectors);
    StepSlices(documents, size, embed, upserts, i, vectors);
    NextOffset(|upserts|, size);
  }

  /** The batch loop of upload_to_pinecone (upload_to_pinecone.py:62-80): the
      upserted batches are the consecutive slices of the documents, each of at
      most `batchSize`, together exactly the vectors of all documents, and the
      count of uploaded vectors is the number of documents. */
  method UploadToPinecone(documents: seq<Document>, batchSize: nat, embed: string -> seq<real>)
    returns (upserts: seq<seq<Vector>>, totalUploaded: nat)
    requires batchSize > 0
    ensures totalUploaded == |documents|
    ensures Concat(upserts) == VectorsOf(documents, embed)
    ensures forall k :: 0 <= k < |upserts| ==> 0 < |upserts[k]| <= batchSize
    ensures forall k :: 0 <= k < |upserts| - 1 ==> |upserts[k]| == batchSize
    ensures forall k: nat :: k < |upserts| ==>
      k * batchSize < |documents| && upserts[k] == VectorsOf(BatchAt(documents, batchSize, k), embed)
  {
    totalUploaded := 0;
    upserts := [];
    var i := 0;
    while i < |documents|
      invariant UploadedUpTo(documents, batchSize, embed, upserts, i)
      invariant totalUploaded == Min(i, |documents|)
    {
      var batchDocs := documents[i..Min(i + batchSize, |documents|)];
      var vectors := BatchVectors(batchDocs, embed);
      UploadStep(documents, batchSize, embed, upserts, i, vectors);
      upserts := upserts + [vectors];
      totalUploaded := totalUploaded + |vectors|;
      i := i + batchSize;
    }
    assert documents[..Min(i, |documents|)] == documents;
  }
}
