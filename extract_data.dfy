/** The ingestion step of Python_WebSocket/extract_data.py: question/answer
    records and one metadata record per XML document, with whitespace
    normalised. The XML parser is outside the model: a document arrives as
    its parsed element tree, or as None when parsing failed. The random
    fallback id (uuid4) is a parameter. */
module ExtractData {
  import opened Wrappers
  import opened Text
  import Seqs

  /** An ElementTree element: tag, attributes, leading text, children, and the text after its end tag. */
  datatype Element = Element(tag: string, attrs: map<string, string>, text: Option<string>,
                             children: seq<Element>, tail: Option<string>)

  // ------------------------------------------------------------ helpers

  /** `"".join(elem.itertext())`: the element's text, then each child's text followed by the child's tail. */
  function IterText(e: Element): string
    decreases e, 1, 0
  {
    e.text.GetOr("") + ChildrenText(e, 0)
  }

  function ChildrenText(e: Element, i: nat): string
    requires i <= |e.children|
    decreases e, 0, |e.children| - i
  {
    if i == |e.children| then ""
    else IterText(e.children[i]) + e.children[i].tail.GetOr("") + ChildrenText(e, i + 1)
  }

  /** to_text (extract_data.py:11-15). */
  function ToText(elem: Option<Element>): (r: string)
    ensures elem.None? ==> r == ""
    ensures IsStripped(Python, r)
  {
    if elem.None? then "" else Strip(Python, IterText(elem.value))
  }

  /** safe_attr (extract_data.py:21-22): the attribute, else the default, and the default for a missing element. */
  function SafeAttr(elem: Option<Element>, name: string, default: string): (r: string)
    ensures elem.None? || name !in elem.value.attrs ==> r == default
    ensures elem.Some? && name in elem.value.attrs ==> r == elem.value.attrs[name]
  {
    if elem.Some? && name in elem.value.attrs then elem.value.attrs[name] else default
  }

  /** `parent.find(tag)` for a plain tag: the first child with that tag. */
  function Find(parent: Element, tag: string): (r: Option<Element>)
    ensures r.Some? ==> r.value in parent.children && r.value.tag == tag
    ensures r.None? ==> forall c :: c in parent.children ==> c.tag != tag
  {
    FindFrom(parent.children, tag)
  }

  function FindFrom(cs: seq<Element>, tag: string): (r: Option<Element>)
    ensures r.Some? ==> r.value in cs && r.value.tag == tag
    ensures r.None? ==> forall c :: c in cs ==> c.tag != tag
  {
    if cs == [] then None else if cs[0].tag == tag then Some(cs[0]) else FindFrom(cs[1..], tag)
  }

  /** `find` returns the FIRST child with the tag: every child before it has another tag. */
  lemma {:induction false} FindIsFirst(parent: Element, tag: string)
    ensures Find(parent, tag).Some? ==>
      exists i :: 0 <= i < |parent.children| && parent.children[i] == Find(parent, tag).value
        && forall j :: 0 <= j < i ==> parent.children[j].tag != tag
  {
    FindFromIsFirst(parent.children, tag);
  }

  lemma {:induction false} FindFromIsFirst(cs: seq<Element>, tag: string)
    ensures FindFrom(cs, tag).Some? ==>
      exists i :: 0 <= i < |cs| && cs[i] == FindFrom(cs, tag).value && forall j :: 0 <= j < i ==> cs[j].tag != tag
  {
    if cs != [] {
      if cs[0].tag == tag {
        assert cs[0] == FindFrom(cs, tag).value;
      } else {
        FindFromIsFirst(cs[1..], tag);
        if FindFrom(cs, tag).Some? {
          var i :| 0 <= i < |cs[1..]| && cs[1..][i] == FindFrom(cs[1..], tag).value
                   && forall j :: 0 <= j < i ==> cs[1..][j].tag != tag;
          assert cs[i + 1] == FindFrom(cs, tag).value;
          assert forall j :: 0 <= j < i + 1 ==> cs[j].tag != tag by {
            forall j | 0 <= j < i + 1 ensures cs[j].tag != tag {
              if j > 0 { assert cs[j] == cs[1..][j - 1]; }
            }
          }
        }
      }
    }
  }

  predicate HasTag(tag: string, e: Element) {
    e.tag == tag
  }

  /** `parent.findall(tag)`: all children with that tag, in document order. */
  function FindAll(parent: Element, tag: string): seq<Element> {
    Seqs.Filter(e => HasTag(tag, e), parent.children)
  }

  /** findtext (extract_data.py:24-26): the stripped text of the first child with the tag, "" without one or without text. */
  function FindText(root: Element, path: string): (r: string)
    ensures Find(root, path).None? ==> r == ""
    ensures Find(root, path).Some? ==> r == Strip(Python, Find(root, path).value.text.GetOr(""))
  {
    var el := Find(root, path);
    if el.Some? && el.value.text.Some? && el.value.text.value != "" then Strip(Python, el.value.text.value) else ""
  }

  // ------------------------------------------------------------ norm_ws

  predicate NonBlankLine(l: string) {
    Strip(Python, l) != []
  }

  function StripLines(ls: seq<string>): (r: seq<string>)
    ensures |r| == |ls| && forall i :: 0 <= i < |ls| ==> r[i] == Strip(Python, ls[i])
  {
    if ls == [] then [] else [Strip(Python, ls[0])] + StripLines(ls[1..])
  }

  /** The lines norm_ws keeps: the non-blank lines of the stripped text, each stripped, in order. */
  function NormLines(s: string): seq<string> {
    StripLines(Seqs.Filter(NonBlankLine, Lines(Strip(Python, s))))
  }

  /** norm_ws (extract_data.py:17-19). */
  function NormWs(s: string): (r: string)
    ensures NormLines(s) == [] ==> r == ""
    ensures |NormLines(s)| == 1 ==> r == NormLines(s)[0]
  {
    Seqs.Join(NormLines(s), "\n")
  }

  lemma StripKeepsNoLineBreak(l: string)
    requires NoLineBreak(l)
    ensures NoLineBreak(Strip(Python, l))
  {
    StripInfix(Python, l);
  }

  /** Every kept line is non-empty, has no surrounding whitespace and no line break. */
  lemma NormLinesShape(s: string)
    ensures NormalLines(NormLines(s))
  {
    var kept := Seqs.Filter(NonBlankLine, Lines(Strip(Python, s)));
    forall l | l in NormLines(s) ensures l != [] && IsStripped(Python, l) && NoLineBreak(l) {
      var i :| 0 <= i < |NormLines(s)| && NormLines(s)[i] == l;
      assert kept[i] in kept;
      StripKeepsNoLineBreak(kept[i]);
    }
  }

  lemma {:induction false} JoinEnds(ls: seq<string>, sep: string)
    requires ls != [] && forall i :: 0 <= i < |ls| ==> ls[i] != []
    ensures var j := Seqs.Join(ls, sep); |j| > 0 && j[0] == ls[0][0] && j[|j| - 1] == ls[|ls| - 1][|ls[|ls| - 1]| - 1]
  {
    if |ls| > 1 {
      var rest := ls[1..];
      JoinEnds(rest, sep);
      var j, jr := Seqs.Join(ls, sep), Seqs.Join(rest, sep);
      assert j == ls[0] + sep + jr;
      assert j[|j| - 1] == jr[|jr| - 1];
      assert rest[|rest| - 1] == ls[|ls| - 1];
    }
  }

  /** Cutting the output into lines gives back exactly the kept lines. */
  lemma NormWsLines(s: string)
    requires NormLines(s) != []
    ensures Lines(NormWs(s)) == NormLines(s)
  {
    NormLinesShape(s);
    assert forall l :: l in NormLines(s) ==> NoLineBreak(l);
    LinesOfJoin(NormLines(s));
  }

  /** The output's lines are the non-blank lines of the input, stripped, in their original order. */
  lemma NormWsKeepsOrder(s: string)
    ensures var all := Lines(Strip(Python, s)); var kept := Seqs.Filter(NonBlankLine, all);
      && Seqs.IsSubsequence(kept, all)
      && (forall l :: l in all && NonBlankLine(l) ==> l in kept)
      && (NormLines(s) != [] ==> Lines(NormWs(s)) == StripLines(kept))
      && (NormLines(s) == [] ==> NormWs(s) == "")
  {
    Seqs.FilterIsSubsequence(NonBlankLine, Lines(Strip(Python, s)));
    if NormLines(s) != [] {
      NormWsLines(s);
    }
  }

  /** Lines of the shape norm_ws produces. */
  predicate NormalLines(L: seq<string>) {
    forall l :: l in L ==> l != [] && IsStripped(Python, l) && NoLineBreak(l)
  }

  /** Joining such lines gives a text with no surrounding whitespace, empty only for no lines. */
  lemma JoinNormalLines(L: seq<string>)
    requires NormalLines(L)
    ensures IsStripped(Python, Seqs.Join(L, "\n"))
    ensures Seqs.Join(L, "\n") == "" <==> L == []
  {
    if L != [] {
      assert forall i :: 0 <= i < |L| ==> L[i] in L;
      JoinEnds(L, "\n");
    }
  }

  /** The output is empty exactly when no line has any non-whitespace. */
  lemma NormWsEmpty(s: string)
    ensures NormWs(s) == "" <==> NormLines(s) == []
  {
    NormLinesShape(s);
    JoinNormalLines(NormLines(s));
  }

  /** A non-empty output has no surrounding whitespace. */
  lemma NormWsStripped(s: string)
    ensures IsStripped(Python, NormWs(s))
  {
    NormLinesShape(s);
    JoinNormalLines(NormLines(s));
  }

  lemma {:induction false} FilterAll<T>(p: T -> bool, ls: seq<T>)
    requires forall x :: x in ls ==> p(x)
    ensures Seqs.Filter(p, ls) == ls
  {
    if ls != [] {
      FilterAll(p, ls[1..]);
    }
  }

  /** Normalising the join of normal lines gives the same text back. */
  lemma NormOfNormalLines(L: seq<string>)
    requires NormalLines(L)
    ensures NormLines(Seqs.Join(L, "\n")) == L
  {
    var t := Seqs.Join(L, "\n");
    JoinNormalLines(L);
    StripOfStripped(Python, t);
    if L == [] {
      assert Lines(Strip(Python, t)) == [[]];
      assert Seqs.Filter(NonBlankLine, [[]]) == [];
    } else {
      LinesOfJoin(L);
      assert Lines(Strip(Python, t)) == L;
      NormalLinesAreFixed(L);
      FilterAll(NonBlankLine, L);
    }
  }

  /** Normal lines are non-blank and are their own stripped forms. */
  lemma NormalLinesAreFixed(L: seq<string>)
    requires NormalLines(L)
    ensures forall l :: l in L ==> NonBlankLine(l)
    ensures StripLines(L) == L
  {
    forall l | l in L ensures Strip(Python, l) == l {
      StripOfStripped(Python, l);
    }
    assert forall i :: 0 <= i < |L| ==> L[i] in L;
  }

  /** norm_ws is idempotent. */
  lemma NormWsIdempotent(s: string)
    ensures NormWs(NormWs(s)) == NormWs(s)
  {
    NormLinesShape(s);
    NormOfNormalLines(NormLines(s));
  }

  // ------------------------------------------------------------ records

  /** The fields every record of a document shares. */
  datatype DocHeader = DocHeader(documentId: string, source: string, url: string, focus: string, lastReviewed: string)

  datatype QaRecord = QaRecord(
    id: string, docType: string, documentId: string, focus: string, section: string,
    source: string, url: string, lang: string, audience: string, lastReviewedDate: Option<string>,
    qtype: string, qid: string, pid: string, question: string, answer: string)

  datatype MetaRecord = MetaRecord(
    id: string, docType: string, documentId: string, focus: string, source: string,
    url: string, lang: string, audience: string, lastReviewedDate: Option<string>)

  /** `x or None` for a string. */
  function OrNone(s: string): (r: Option<string>)
    ensures r.None? <==> s == ""
    ensures r.Some? ==> r.value == s
  {
    if s == "" then None else Some(s)
  }

  /** The header fields (extract_data.py:44-48 and 100-104): the id falls
      back to the file stem, the review date to the root's attribute. */
  function Header(root: Element, stem: string): (h: DocHeader)
    ensures "id" !in root.attrs ==> h.documentId == stem
    ensures "id" in root.attrs ==> h.documentId == root.attrs["id"]
    ensures FindText(root, "LastReviewedDate") != "" ==> h.lastReviewed == FindText(root, "LastReviewedDate")
    ensures FindText(root, "LastReviewedDate") == "" ==> h.lastReviewed == SafeAttr(Some(root), "last_reviewed", "")
    ensures h.source == SafeAttr(Some(root), "source", "") && h.url == SafeAttr(Some(root), "url", "")
    ensures h.focus == FindText(root, "Focus")
  {
    var lr := FindText(root, "LastReviewedDate");
    DocHeader(SafeAttr(Some(root), "id", stem), SafeAttr(Some(root), "source", ""), SafeAttr(Some(root), "url", ""),
              FindText(root, "Focus"),
              if lr != "" then lr else SafeAttr(Some(root), "last_reviewed", ""))
  }

  /** The answer text of a QAPair: its Answer element's text, whitespace-normalised. */
  function AnswerOf(qa: Element): string {
    NormWs(ToText(Find(qa, "Answer")))
  }

  /** The Question element's own leading text, stripped (not its children's text). */
  function QuestionOf(qa: Element): string {
    match Find(qa, "Question")
    case Some(q) => Strip(Python, q.text.GetOr(""))
    case None => ""
  }

  /** A QAPair yields a record: it has a Question and an Answer, and the answer is not blank. */
  predicate KeptPair(qa: Element) {
    Find(qa, "Question").Some? && Find(qa, "Answer").Some? && AnswerOf(qa) != ""
  }

  /** The kept pairs, in document order. */
  function KeptPairs(pairs: seq<Element>): (kept: seq<Element>)
    decreases |pairs|
  {
    if pairs == [] then []
    else KeptPairs(pairs[..|pairs| - 1]) + (if KeptPair(pairs[|pairs| - 1]) then [pairs[|pairs| - 1]] else [])
  }

  /** The record of one QAPair element (extract_data.py:55-87), None when it is skipped. */
  function QaRecordOf(h: DocHeader, lang: string, qa: Element, hex: string): (r: Option<QaRecord>)
    ensures Find(qa, "Question").None? || Find(qa, "Answer").None? ==> r.None?
    ensures Find(qa, "Answer").Some? && NormWs(ToText(Find(qa, "Answer"))) == "" ==> r.None?
    ensures r.Some? <==> KeptPair(qa)
    ensures r.Some? ==> r.value.answer != "" && r.value.docType == "qa" && r.value.documentId == h.documentId
    ensures r.Some? && r.value.qid != "" ==> r.value.id == h.documentId + ":" + r.value.qid
    ensures r.Some? ==> (r.value.lastReviewedDate.None? <==> h.lastReviewed == "")
  {
    var q := Find(qa, "Question");
    var a := Find(qa, "Answer");
    if q.None? || a.None? then None
    else
      var question := QuestionOf(qa);
      var answer := AnswerOf(qa);
      if answer == "" then None
      else
        var qid := SafeAttr(q, "qid", "");
        var rid := h.documentId + ":" + (if qid != "" then qid else hex);
        Some(QaRecord(rid, "qa", h.documentId, h.focus, SafeAttr(Some(qa), "section", ""), h.source, h.url, lang,
                      "patient", OrNone(h.lastReviewed), SafeAttr(q, "qtype", ""), qid, SafeAttr(Some(qa), "pid", ""),
                      question, answer))
  }

  /** The fields of a kept pair's record: its question and answer texts, the
      attributes of the pair and its question, the header's fields, and the id. */
  lemma QaRecordOfFields(h: DocHeader, lang: string, qa: Element, hex: string)
    requires KeptPair(qa)
    ensures var rec, q := QaRecordOf(h, lang, qa, hex).value, Find(qa, "Question");
      && rec.answer == AnswerOf(qa) && rec.question == QuestionOf(qa)
      && rec.qid == SafeAttr(q, "qid", "") && rec.qtype == SafeAttr(q, "qtype", "")
      && rec.pid == SafeAttr(Some(qa), "pid", "") && rec.section == SafeAttr(Some(qa), "section", "")
      && rec.id == h.documentId + ":" + (if rec.qid != "" then rec.qid else hex)
      && rec.docType == "qa" && rec.documentId == h.documentId
      && rec.focus == h.focus && rec.source == h.source && rec.url == h.url
      && rec.lang == lang && rec.audience == "patient"
      && rec.lastReviewedDate == OrNone(h.lastReviewed)
  {
  }

  function AsSeq(r: Option<QaRecord>): seq<QaRecord> {
    match r case Some(x) => [x] case None => []
  }

  /** The records of the first pairs, in order; pair k draws `randomHex(k)` if it needs an id. */
  function QaRecordsOf(h: DocHeader, lang: string, pairs: seq<Element>, randomHex: nat -> string): seq<QaRecord>
    decreases |pairs|
  {
    if pairs == [] then []
    else
      var k := |pairs| - 1;
      QaRecordsOf(h, lang, pairs[..k], randomHex) + AsSeq(QaRecordOf(h, lang, pairs[k], randomHex(k)))
  }

  /** The record carries the pair's question and answer. */
  predicate BuiltFrom(r: QaRecord, qa: Element) {
    r.question == QuestionOf(qa) && r.answer == AnswerOf(qa)
  }

  lemma QaRecordOfKept(h: DocHeader, lang: string, qa: Element, hex: string)
    ensures AsSeq(QaRecordOf(h, lang, qa, hex)) == if KeptPair(qa) then [QaRecordOf(h, lang, qa, hex).value] else []
    ensures KeptPair(qa) ==> BuiltFrom(QaRecordOf(h, lang, qa, hex).value, qa)
  {
  }

  /** Exactly one record per kept pair; every record has an answer, is of type "qa" and has the document's id as prefix. */
  lemma {:induction false} QaRecordsOfShape(h: DocHeader, lang: string, pairs: seq<Element>, randomHex: nat -> string)
    ensures |QaRecordsOf(h, lang, pairs, randomHex)| <= |pairs|
    ensures |QaRecordsOf(h, lang, pairs, randomHex)| == |KeptPairs(pairs)|
    ensures forall r :: r in QaRecordsOf(h, lang, pairs, randomHex) ==>
      r.answer != "" && r.docType == "qa" && r.documentId == h.documentId
      && (r.qid != "" ==> r.id == h.documentId + ":" + r.qid)
  {
    if pairs != [] {
      var init, last := pairs[..|pairs| - 1], pairs[|pairs| - 1];
      QaRecordsOfShape(h, lang, init, randomHex);
      QaRecordOfKept(h, lang, last, randomHex(|init|));
    }
  }

  /** The j-th record is built from the j-th kept pair, in document order: its question and answer are that pair's. */
  lemma {:induction false} QaRecordsOfPairs(h: DocHeader, lang: string, pairs: seq<Element>, randomHex: nat -> string)
    ensures Seqs.Pointwise(QaRecordsOf(h, lang, pairs, randomHex), KeptPairs(pairs), BuiltFrom)
  {
    if pairs != [] {
      var init, last := pairs[..|pairs| - 1], pairs[|pairs| - 1];
      QaRecordsOfPairs(h, lang, init, randomHex);
      var r := QaRecordOf(h, lang, last, randomHex(|init|));
      QaRecordOfKept(h, lang, last, randomHex(|init|));
      var tail, keptTail := AsSeq(r), if KeptPair(last) then [last] else [];
      assert QaRecordsOf(h, lang, pairs, randomHex) == QaRecordsOf(h, lang, init, randomHex) + tail;
      assert KeptPairs(pairs) == KeptPairs(init) + keptTail;
      Seqs.PointwiseAppend(QaRecordsOf(h, lang, init, randomHex), KeptPairs(init), tail, keptTail, BuiltFrom);
    }
  }

  lemma QaRecordsOfStep(h: DocHeader, lang: string, pairs: seq<Element>, i: nat, randomHex: nat -> string)
    requires i < |pairs|
    ensures QaRecordsOf(h, lang, pairs[..i + 1], randomHex)
         == QaRecordsOf(h, lang, pairs[..i], randomHex) + AsSeq(QaRecordOf(h, lang, pairs[i], randomHex(i)))
  {
    assert pairs[..i + 1][..i] == pairs[..i];
  }

  /** extract_doc_qa_records (extract_data.py:33-87): nothing for a document
      that did not parse or has no QAPairs element, else one record per kept pair. */
  method ExtractDocQaRecords(xml: Option<Element>, stem: string, lang: string, randomHex: nat -> string)
    returns (records: seq<QaRecord>)
    ensures xml.None? ==> records == []
    ensures xml.Some? && Find(xml.value, "QAPairs").None? ==> records == []
    ensures xml.Some? && Find(xml.value, "QAPairs").Some? ==>
      records == QaRecordsOf(Header(xml.value, stem), lang, FindAll(Find(xml.value, "QAPairs").value, "QAPair"), randomHex)
  {
    records := [];
    if xml.None? {
      return;
    }
    var root := xml.value;
    var h := Header(root, stem);
    var qapairs := Find(root, "QAPairs");
    if qapairs.None? {
      return;
    }
    var pairs := FindAll(qapairs.value, "QAPair");
    var i := 0;
    while i < |pairs|
      invariant 0 <= i <= |pairs|
      invariant records == QaRecordsOf(h, lang, pairs[..i], randomHex)
    {
      var r := QaRecordOf(h, lang, pairs[i], randomHex(i));
      QaRecordsOfStep(h, lang, pairs, i, randomHex);
      if r.Some? {
        records := records + [r.value];
      }
      i := i + 1;
    }
    assert pairs[..i] == pairs;
  }

  /** extract_doc_meta_record (extract_data.py:89-116). */
  function ExtractDocMetaRecord(xml: Option<Element>, stem: string, lang: string): (r: Option<MetaRecord>)
    ensures r.None? <==> xml.None?
    ensures r.Some? ==> var h := Header(xml.value, stem);
      && r.value.id == h.documentId + "::meta" && r.value.docType == "doc_meta"
      && r.value.documentId == h.documentId
      && r.value.focus == h.focus && r.value.source == h.source && r.value.url == h.url
      && r.value.lang == lang && r.value.audience == "patient"
      && (r.value.lastReviewedDate.None? <==> h.lastReviewed == "")
      && (h.lastReviewed != "" ==> r.value.lastReviewedDate == Some(h.lastReviewed))
  {
    if xml.None? then None
    else
      var h := Header(xml.value, stem);
      Some(MetaRecord(h.documentId + "::meta", "doc_meta", h.documentId, h.focus, h.source, h.url, lang,
                      "patient", OrNone(h.lastReviewed)))
  }

  /** The text write_jsonl writes: one serialised record per line. */
  function JsonlText<R>(records: seq<R>, dump: R -> string): string
    decreases |records|
  {
    if records == [] then "" else JsonlText(records[..|records| - 1], dump) + dump(records[|records| - 1]) + "\n"
  }

  /** write_jsonl (extract_data.py:119-126), with `json.dumps` as `dump`: the
      count it returns is the number of records written. */
  method WriteJsonl<R>(records: seq<R>, dump: R -> string) returns (n: nat, out: string)
    ensures n == |records|
    ensures out == JsonlText(records, dump)
  {
    n, out := 0, "";
    while n < |records|
      invariant 0 <= n <= |records|
      invariant out == JsonlText(records[..n], dump)
    {
      out := out + dump(records[n]) + "\n";
      assert records[..n + 1][..n] == records[..n];
      n := n + 1;
    }
    assert records[..n] == records;
  }
}
