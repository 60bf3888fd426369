/**
 * Citation numbers of the analysis corpus (internal/execution/executor.go and
 * prompt.go). Text is a sequence of bytes, one char for each.
 */
module Corpus {
  import opened Text

  datatype Segment = Segment(startMs: int, speaker: string, text: string)

  datatype Document = Document(
    noteId: string,
    title: string,
    occurredAt: string,
    transcriptGeneration: int,
    segments: seq<Segment>,
    notesMarkdown: string)

  datatype SourceRef = SourceRef(
    n: int,
    noteId: string,
    transcriptGeneration: int,
    segmentIndex: nat,
    timestamp: int,
    snippet: string)

  // ----- the key under which a segment is remembered

  const SEPARATOR := '\0'

  function SegmentKey(noteId: string, segmentIndex: nat): string {
    noteId + [SEPARATOR] + Decimal(segmentIndex)
  }

  /** Any two note ids and indices have different keys, even if an id contains the separator. */
  lemma SegmentKeyInjective(a: string, i: nat, b: string, j: nat)
    requires SegmentKey(a, i) == SegmentKey(b, j)
    ensures a == b && i == j
  {
    assert !IsDigit(SEPARATOR);
    LastSeparator(a, Decimal(i), b, Decimal(j), SEPARATOR);
    ValueOfDecimal(i);
    ValueOfDecimal(j);
  }

  // ----- what the numbering has to be

  /** A segment's place: its document, then its index. */
  type Place = (nat, nat)

  predicate Before(p: Place, q: Place) {
    p.0 < q.0 || (p.0 == q.0 && p.1 < q.1)
  }

  predicate IsPlace(docs: seq<Document>, p: Place) {
    p.0 < |docs| && p.1 < |docs[p.0].segments|
  }

  /** No document before this one has a segment with the same note id and index. */
  ghost predicate FirstOfItsKind(docs: seq<Document>, p: Place)
    requires p.0 < |docs|
  {
    forall d :: 0 <= d < p.0 && docs[d].noteId == docs[p.0].noteId ==> |docs[d].segments| <= p.1
  }

  function RefAt(docs: seq<Document>, p: Place, n: int): SourceRef
    requires IsPlace(docs, p)
  {
    var doc := docs[p.0];
    SourceRef(n, doc.noteId, doc.transcriptGeneration, p.1, doc.segments[p.1].startMs, doc.segments[p.1].text)
  }

  /** The sources are numbered 1, 2, ... over the first segments of their kind, in document order. */
  ghost predicate NumbersFrom(docs: seq<Document>, sources: seq<SourceRef>, places: seq<Place>) {
    && |places| == |sources|
    && (forall k :: 0 <= k < |places| ==> IsPlace(docs, places[k]) && FirstOfItsKind(docs, places[k]))
    && (forall k :: 0 <= k < |places| ==> sources[k] == RefAt(docs, places[k], k + 1))
    && (forall j, k :: 0 <= j < k < |places| ==> Before(places[j], places[k]))
  }

  predicate Names(s: SourceRef, noteId: string, segmentIndex: nat) {
    s.noteId == noteId && s.segmentIndex == segmentIndex
  }

  ghost predicate Cited(sources: seq<SourceRef>, noteId: string, segmentIndex: nat) {
    exists k :: 0 <= k < |sources| && Names(sources[k], noteId, segmentIndex)
  }

  /** All segments before a place have a number. */
  ghost predicate CoversUpTo(docs: seq<Document>, sources: seq<SourceRef>, end: Place) {
    forall d, i :: 0 <= d < |docs| && 0 <= i < |docs[d].segments| && Before((d, i), end) ==>
      Cited(sources, docs[d].noteId, i)
  }

  /** Distinct numbers stand for distinct segments. */
  lemma NumbersAreDistinct(docs: seq<Document>, sources: seq<SourceRef>, places: seq<Place>, j: nat, k: nat)
    requires NumbersFrom(docs, sources, places) && j < k < |sources|
    ensures !(sources[j].noteId == sources[k].noteId && sources[j].segmentIndex == sources[k].segmentIndex)
  {
    assert Before(places[j], places[k]);
    if places[j].0 < places[k].0 && docs[places[j].0].noteId == docs[places[k].0].noteId {
      assert |docs[places[j].0].segments| <= places[k].1;
    }
  }

  // ----- the numbering loops

  /** The table `seen` holds exactly the keys of the numbered segments, with their numbers. */
  ghost predicate Remembers(seen: map<string, int>, sources: seq<SourceRef>) {
    && (forall k :: 0 <= k < |sources| ==>
          var key := SegmentKey(sources[k].noteId, sources[k].segmentIndex);
          key in seen && seen[key] == sources[k].n)
    && (forall key :: key in seen ==>
          exists k :: 0 <= k < |sources| && key == SegmentKey(sources[k].noteId, sources[k].segmentIndex))
  }

  lemma RememberedIffCited(seen: map<string, int>, sources: seq<SourceRef>, noteId: string, i: nat)
    requires Remembers(seen, sources)
    ensures SegmentKey(noteId, i) in seen <==> Cited(sources, noteId, i)
  {
    if SegmentKey(noteId, i) in seen {
      var k :| 0 <= k < |sources| && SegmentKey(noteId, i) == SegmentKey(sources[k].noteId, sources[k].segmentIndex);
      SegmentKeyInjective(noteId, i, sources[k].noteId, sources[k].segmentIndex);
      assert Names(sources[k], noteId, i);
    }
  }

  lemma CitedMeansEarlier(docs: seq<Document>, sources: seq<SourceRef>, places: seq<Place>, d: nat, i: nat)
    requires NumbersFrom(docs, sources, places) && IsPlace(docs, (d, i))
    requires forall k :: 0 <= k < |places| ==> Before(places[k], (d, i))
    requires CoversUpTo(docs, sources, (d, i))
    ensures Cited(sources, docs[d].noteId, i) <==> !FirstOfItsKind(docs, (d, i))
  {
    if Cited(sources, docs[d].noteId, i) {
      var k :| 0 <= k < |sources| && Names(sources[k], docs[d].noteId, i);
      assert Before(places[k], (d, i)) && places[k].1 == i;
    }
    if !FirstOfItsKind(docs, (d, i)) {
      var e :| 0 <= e < d && docs[e].noteId == docs[d].noteId && i < |docs[e].segments|;
      assert Before((e, i), (d, i));
    }
  }

  lemma Remembering(seen: map<string, int>, sources: seq<SourceRef>, s: SourceRef)
    requires Remembers(seen, sources) && !Cited(sources, s.noteId, s.segmentIndex)
    ensures Remembers(seen[SegmentKey(s.noteId, s.segmentIndex) := s.n], sources + [s])
  {
    var key, more := SegmentKey(s.noteId, s.segmentIndex), sources + [s];
    RememberedIffCited(seen, sources, s.noteId, s.segmentIndex);
    assert key !in seen;
    forall k | 0 <= k < |sources| ensures SegmentKey(more[k].noteId, more[k].segmentIndex) != key {
      assert SegmentKey(sources[k].noteId, sources[k].segmentIndex) in seen;
    }
    assert more[|sources|] == s;
    forall other | other in seen
      ensures exists k :: 0 <= k < |more| && other == SegmentKey(more[k].noteId, more[k].segmentIndex)
    {
      var k :| 0 <= k < |sources| && other == SegmentKey(sources[k].noteId, sources[k].segmentIndex);
      assert more[k] == sources[k];
    }
  }

  lemma CoversMore(docs: seq<Document>, sources: seq<SourceRef>, d: nat, i: nat, more: seq<SourceRef>)
    requires IsPlace(docs, (d, i)) && CoversUpTo(docs, sources, (d, i)) && sources <= more
    requires Cited(more, docs[d].noteId, i)
    ensures CoversUpTo(docs, more, (d, i + 1))
  {
    forall e, j | 0 <= e < |docs| && 0 <= j < |docs[e].segments| && Before((e, j), (d, i + 1))
      ensures Cited(more, docs[e].noteId, j)
    {
      if (e, j) != (d, i) {
        assert Before((e, j), (d, i));
        var k :| 0 <= k < |sources| && Names(sources[k], docs[e].noteId, j);
        assert Names(more[k], docs[e].noteId, j);
      }
    }
  }

  /** The loops have dealt with every segment before `end`. */
  ghost predicate Done(docs: seq<Document>, sources: seq<SourceRef>, seen: map<string, int>,
                       places: seq<Place>, end: Place)
  {
    && NumbersFrom(docs, sources, places)
    && Remembers(seen, sources)
    && CoversUpTo(docs, sources, end)
    && forall k :: 0 <= k < |places| ==> Before(places[k], end)
  }

  /**
   * The numbering loops of PrepareDocuments: every distinct pair of note and index
   * gets one of the numbers 1, 2, ..., in document and then segment order.
   */
  method AssignNumbers(docs: seq<Document>) returns (sources: seq<SourceRef>, ghost places: seq<Place>)
    ensures NumbersFrom(docs, sources, places)
    ensures forall d, i :: 0 <= d < |docs| && 0 <= i < |docs[d].segments| ==> Cited(sources, docs[d].noteId, i)
  {
    var seen: map<string, int> := map[];
    sources, places := [], [];
    for d := 0 to |docs|
      invariant Done(docs, sources, seen, places, (d, 0))
    {
      for i := 0 to |docs[d].segments|
        invariant Done(docs, sources, seen, places, (d, i))
      {
        sources, seen, places := NumberOne(docs, d, i, sources, seen, places);
      }
      NextDocument(docs, sources, seen, places, d);
    }
    AllCovered(docs, sources);
  }

  lemma AllCovered(docs: seq<Document>, sources: seq<SourceRef>)
    requires CoversUpTo(docs, sources, (|docs|, 0))
    ensures forall d, i :: 0 <= d < |docs| && 0 <= i < |docs[d].segments| ==> Cited(sources, docs[d].noteId, i)
  {
    forall d, i | 0 <= d < |docs| && 0 <= i < |docs[d].segments|
      ensures Cited(sources, docs[d].noteId, i)
    {
      assert Before((d, i), (|docs|, 0));
    }
  }

  /** The loop goes on with the next document. */
  lemma NextDocument(docs: seq<Document>, sources: seq<SourceRef>, seen: map<string, int>, places: seq<Place>, d: nat)
    requires d < |docs| && Done(docs, sources, seen, places, (d, |docs[d].segments|))
    ensures Done(docs, sources, seen, places, (d + 1, 0))
  {
  }

  /** The next number goes to the next segment that is the first of its kind. */
  lemma NumberedNext(docs: seq<Document>, d: nat, i: nat, sources: seq<SourceRef>, places: seq<Place>, s: SourceRef)
    requires NumbersFrom(docs, sources, places) && IsPlace(docs, (d, i)) && FirstOfItsKind(docs, (d, i))
    requires forall k :: 0 <= k < |places| ==> Before(places[k], (d, i))
    requires s == RefAt(docs, (d, i), |sources| + 1)
    ensures NumbersFrom(docs, sources + [s], places + [(d, i)])
    ensures Cited(sources + [s], docs[d].noteId, i)
  {
    assert Names((sources + [s])[|sources|], docs[d].noteId, i);
  }

  /** One turn of the inner loop. */
  method NumberOne(docs: seq<Document>, d: nat, i: nat,
                   before: seq<SourceRef>, table: map<string, int>, ghost earlier: seq<Place>)
    returns (sources: seq<SourceRef>, seen: map<string, int>, ghost places: seq<Place>)
    requires IsPlace(docs, (d, i))
    requires Done(docs, before, table, earlier, (d, i))
    ensures Done(docs, sources, seen, places, (d, i + 1))
  {
    var doc := docs[d];
    var key := SegmentKey(doc.noteId, i);
    RememberedIffCited(table, before, doc.noteId, i);
    CitedMeansEarlier(docs, before, earlier, d, i);
    if key in table {
      sources, seen, places := before, table, earlier;
    } else {
      var n := |before| + 1;
      var s := SourceRef(n, doc.noteId, doc.transcriptGeneration, i, doc.segments[i].startMs, doc.segments[i].text);
      Remembering(table, before, s);
      NumberedNext(docs, d, i, before, earlier, s);
      sources, seen, places := before + [s], table[key := n], earlier + [(d, i)];
    }
    CoversMore(docs, before, d, i, sources);
  }

  // ----- buildCorpus

  /** The corpus before it is flattened to text: fixed text, and lines that carry a number. */
  datatype Piece = Fixed(text: string) | Line(n: int, noteId: string, segmentIndex: nat, segment: Segment)

  /** The sentences around the documents. */
  datatype Wording = Wording(directive: string, noFocus: string, citations: string, output: string)

  function Render(p: Piece): string {
    match p
    case Fixed(text) => text
    case Line(n, _, _, segment) =>
      "[" + Signed(n) + "] " + (if segment.speaker != "" then segment.speaker + ": " else "") + segment.text + "\n"
  }

  function RenderAll(ps: seq<Piece>): string {
    if ps == [] then "" else RenderAll(ps[..|ps| - 1]) + Render(ps[|ps| - 1])
  }

  function Header(doc: Document, index: nat): string {
    "--- MEETING " + Decimal(index + 1) + ": " + doc.title + " | "
    + (if doc.occurredAt == "" then "date unknown" else doc.occurredAt) + " | note_id=" + doc.noteId + " ---\n"
  }

  /** A line's number leads back to the source with the very note and index the line shows. */
  ghost predicate Resolves(sources: seq<SourceRef>, p: Piece) {
    p.Line? ==> 1 <= p.n <= |sources| && Names(sources[p.n - 1], p.noteId, p.segmentIndex)
  }

  /** The lines of a corpus, in order. */
  function Lines(ps: seq<Piece>): seq<Piece> {
    if ps == [] then []
    else Lines(ps[..|ps| - 1]) + if ps[|ps| - 1].Line? then [ps[|ps| - 1]] else []
  }

  lemma LinesSnoc(ps: seq<Piece>, p: Piece)
    ensures Lines(ps + [p]) == Lines(ps) + if p.Line? then [p] else []
  {
    assert (ps + [p])[..|ps|] == ps;
  }

  /** One after the other, the segments of a document. */
  ghost predicate ShowsDocument(lines: seq<Piece>, doc: Document) {
    && |lines| == |doc.segments|
    && forall i :: 0 <= i < |lines| ==>
         && lines[i].Line? && lines[i].noteId == doc.noteId
         && lines[i].segmentIndex == i && lines[i].segment == doc.segments[i]
  }

  /** The lines of the corpus are the documents' segments, document by document. */
  ghost predicate Shows(lines: seq<Piece>, docs: seq<Document>)
    decreases |docs|
  {
    if docs == [] then lines == []
    else
      var last := docs[|docs| - 1];
      && |lines| >= |last.segments|
      && ShowsDocument(lines[|lines| - |last.segments|..], last)
      && Shows(lines[..|lines| - |last.segments|], docs[..|docs| - 1])
  }

  ghost predicate Looks(numberOf: map<string, int>, sources: seq<SourceRef>) {
    forall noteId, i :: Cited(sources, noteId, i) ==>
      var key := SegmentKey(noteId, i);
      key in numberOf && 1 <= numberOf[key] <= |sources| && Names(sources[numberOf[key] - 1], noteId, i)
  }

  /** The keys of the first k sources lead to their numbers. */
  ghost predicate Tabled(numberOf: map<string, int>, sources: seq<SourceRef>, k: nat)
    requires k <= |sources|
  {
    forall j :: 0 <= j < k ==>
      var key := SegmentKey(sources[j].noteId, sources[j].segmentIndex);
      key in numberOf && numberOf[key] == j + 1
  }

  lemma KeyIsNew(docs: seq<Document>, sources: seq<SourceRef>, places: seq<Place>, k: nat)
    requires NumbersFrom(docs, sources, places) && k < |sources|
    ensures sources[k].n == k + 1
    ensures forall j :: 0 <= j < k ==>
              SegmentKey(sources[j].noteId, sources[j].segmentIndex)
              != SegmentKey(sources[k].noteId, sources[k].segmentIndex)
  {
    forall j | 0 <= j < k
      ensures SegmentKey(sources[j].noteId, sources[j].segmentIndex)
              != SegmentKey(sources[k].noteId, sources[k].segmentIndex)
    {
      NumbersAreDistinct(docs, sources, places, j, k);
      var one, other := sources[j], sources[k];
      if SegmentKey(one.noteId, one.segmentIndex) == SegmentKey(other.noteId, other.segmentIndex) {
        SegmentKeyInjective(one.noteId, one.segmentIndex, other.noteId, other.segmentIndex);
      }
    }
  }

  lemma TabledLooks(numberOf: map<string, int>, sources: seq<SourceRef>)
    requires Tabled(numberOf, sources, |sources|)
    ensures Looks(numberOf, sources)
  {
  }

  /** The lookup from a segment to its number. */
  method NumberTable(docs: seq<Document>, sources: seq<SourceRef>, ghost places: seq<Place>)
    returns (numberOf: map<string, int>)
    requires NumbersFrom(docs, sources, places)
    ensures Looks(numberOf, sources)
  {
    numberOf := map[];
    for k := 0 to |sources|
      invariant Tabled(numberOf, sources, k)
    {
      KeyIsNew(docs, sources, places, k);
      numberOf := numberOf[SegmentKey(sources[k].noteId, sources[k].segmentIndex) := sources[k].n];
    }
    TabledLooks(numberOf, sources);
  }

  /** The lines of one document. */
  method DocumentLines(doc: Document, numberOf: map<string, int>, sources: seq<SourceRef>) returns (lines: seq<Piece>)
    requires Looks(numberOf, sources)
    requires forall i :: 0 <= i < |doc.segments| ==> Cited(sources, doc.noteId, i)
    ensures ShowsDocument(lines, doc)
    ensures forall p :: p in lines ==> Resolves(sources, p)
  {
    lines := [];
    for i := 0 to |doc.segments|
      invariant |lines| == i
      invariant forall k :: 0 <= k < i ==>
                  && lines[k].Line? && lines[k].noteId == doc.noteId
                  && lines[k].segmentIndex == k && lines[k].segment == doc.segments[k]
      invariant forall p :: p in lines ==> Resolves(sources, p)
    {
      var key := SegmentKey(doc.noteId, i);
      assert Cited(sources, doc.noteId, i);
      var n := if key in numberOf then numberOf[key] else 0;
      lines := lines + [Line(n, doc.noteId, i, doc.segments[i])];
    }
  }

  lemma {:induction false} LinesAppend(ps: seq<Piece>, lines: seq<Piece>)
    requires forall p :: p in lines ==> p.Line?
    ensures Lines(ps + lines) == Lines(ps) + lines
    decreases |lines|
  {
    if lines == [] {
      assert ps + lines == ps;
    } else {
      var front, last := lines[..|lines| - 1], lines[|lines| - 1];
      LinesAppend(ps, front);
      assert ps + lines == ps + front + [last];
      LinesSnoc(ps + front, last);
    }
  }

  lemma ShowsOneMore(shown: seq<Piece>, docs: seq<Document>, d: nat, lines: seq<Piece>)
    requires d < |docs| && Shows(shown, docs[..d]) && ShowsDocument(lines, docs[d])
    ensures Shows(shown + lines, docs[..d + 1])
  {
    var more := shown + lines;
    assert docs[..d + 1][..d] == docs[..d];
    assert more[|more| - |lines|..] == lines && more[..|more| - |lines|] == shown;
  }

  /** The block of one document joins the corpus. */
  method AddDocument(before: seq<Piece>, docs: seq<Document>, d: nat,
                     numberOf: map<string, int>, sources: seq<SourceRef>)
    returns (pieces: seq<Piece>)
    requires d < |docs| && Looks(numberOf, sources)
    requires forall i :: 0 <= i < |docs[d].segments| ==> Cited(sources, docs[d].noteId, i)
    requires Shows(Lines(before), docs[..d]) && forall p :: p in before ==> Resolves(sources, p)
    requires before != [] && Body(before[1..], docs[..d])
    ensures Shows(Lines(pieces), docs[..d + 1]) && forall p :: p in pieces ==> Resolves(sources, p)
    ensures pieces != [] && pieces[0] == before[0] && Body(pieces[1..], docs[..d + 1])
  {
    var doc := docs[d];
    var lines := DocumentLines(doc, numberOf, sources);
    pieces := before + [HeaderPiece(doc, d)] + lines;
    BlockShows(before, HeaderPiece(doc, d), docs, d, lines);
    BodyOneMore(before, docs, d, lines);
  }

  function HeaderPiece(doc: Document, d: nat): Piece {
    Fixed(Header(doc, d) + if doc.notesMarkdown == "" then "" else doc.notesMarkdown + "\n")
  }

  /** For each document its header with its notes, and then its segments. */
  ghost predicate Body(pieces: seq<Piece>, docs: seq<Document>) {
    if docs == [] then pieces == []
    else
      var last := docs[|docs| - 1];
      var at := |pieces| - |last.segments| - 1;
      && at >= 0 && pieces[at] == HeaderPiece(last, |docs| - 1)
      && ShowsDocument(pieces[at + 1..], last)
      && Body(pieces[..at], docs[..|docs| - 1])
  }

  lemma BodyOneMore(before: seq<Piece>, docs: seq<Document>, d: nat, lines: seq<Piece>)
    requires d < |docs| && before != [] && Body(before[1..], docs[..d]) && ShowsDocument(lines, docs[d])
    ensures Body((before + [HeaderPiece(docs[d], d)] + lines)[1..], docs[..d + 1])
  {
    var body := before[1..];
    var pieces := body + [HeaderPiece(docs[d], d)] + lines;
    assert (before + [HeaderPiece(docs[d], d)] + lines)[1..] == pieces;
    assert docs[..d + 1][..d] == docs[..d];
    assert pieces[|body| + 1..] == lines && pieces[..|body|] == body;
  }

  lemma BlockShows(before: seq<Piece>, header: Piece, docs: seq<Document>, d: nat, lines: seq<Piece>)
    requires d < |docs| && header.Fixed? && Shows(Lines(before), docs[..d]) && ShowsDocument(lines, docs[d])
    ensures Shows(Lines(before + [header] + lines), docs[..d + 1])
  {
    LinesSnoc(before, header);
    LinesAppend(before + [header], lines);
    ShowsOneMore(Lines(before), docs, d, lines);
    assert Lines(before) + [] == Lines(before);
  }

  /**
   * Between the directive and the focus, the corpus shows for each document its header
   * and its notes, and every segment once, in order; the number on each line is the
   * number of the source with that note and index.
   */
  method BuildCorpus(docs: seq<Document>, focus: string, wording: Wording,
                     sources: seq<SourceRef>, ghost places: seq<Place>)
    returns (pieces: seq<Piece>)
    requires NumbersFrom(docs, sources, places)
    requires forall d, i :: 0 <= d < |docs| && 0 <= i < |docs[d].segments| ==> Cited(sources, docs[d].noteId, i)
    ensures Shows(Lines(pieces), docs)
    ensures forall p :: p in pieces ==> Resolves(sources, p)
    ensures |pieces| >= 2 && Body(pieces[1..|pieces| - 1], docs)
    ensures pieces[0] == Fixed(wording.directive + "\n\nMEETINGS:\n")
    ensures pieces[|pieces| - 1] == Closing(focus, wording)
  {
    var numberOf := NumberTable(docs, sources, places);
    var opening := Fixed(wording.directive + "\n\nMEETINGS:\n");
    pieces := AddDocuments(opening, docs, numberOf, sources);
    CloseBody(pieces, docs, Closing(focus, wording));
    pieces := pieces + [Closing(focus, wording)];
  }

  /** What follows the documents. */
  function Closing(focus: string, wording: Wording): Piece {
    Fixed("\nFOCUS: " + (if focus == "" then wording.noFocus else focus) + "\n\nCITATIONS: " + wording.citations)
  }

  lemma CloseBody(pieces: seq<Piece>, docs: seq<Document>, closing: Piece)
    requires pieces != [] && Body(pieces[1..], docs) && Shows(Lines(pieces), docs) && closing.Fixed?
    ensures Shows(Lines(pieces + [closing]), docs) && Body((pieces + [closing])[1..|pieces|], docs)
  {
    LinesSnoc(pieces, closing);
    assert Lines(pieces) + [] == Lines(pieces);
    assert (pieces + [closing])[1..|pieces|] == pieces[1..];
  }

  /** The loop over the documents. */
  method AddDocuments(opening: Piece, docs: seq<Document>, numberOf: map<string, int>, sources: seq<SourceRef>)
    returns (pieces: seq<Piece>)
    requires opening.Fixed? && Looks(numberOf, sources)
    requires forall d, i :: 0 <= d < |docs| && 0 <= i < |docs[d].segments| ==> Cited(sources, docs[d].noteId, i)
    ensures Shows(Lines(pieces), docs) && forall p :: p in pieces ==> Resolves(sources, p)
    ensures pieces != [] && pieces[0] == opening && Body(pieces[1..], docs)
  {
    pieces := [opening];
    LinesSnoc([], opening);
    assert [] + [opening] == pieces;
    for d := 0 to |docs|
      invariant Shows(Lines(pieces), docs[..d]) && forall p :: p in pieces ==> Resolves(sources, p)
      invariant pieces != [] && pieces[0] == opening && Body(pieces[1..], docs[..d])
    {
      pieces := AddDocument(pieces, docs, d, numberOf, sources);
    }
    assert docs[..|docs|] == docs;
  }

  /** The text of a line begins with the number it carries, in brackets. */
  lemma LineShowsItsNumber(p: Piece) returns (digits: string, rest: string)
    requires p.Line? && p.n >= 0
    ensures Render(p) == "[" + digits + "] " + rest
    ensures digits != [] && AllDigits(digits) && Value(digits) == p.n
    ensures p.segment.speaker == "" ==> rest == p.segment.text + "\n"
    ensures p.segment.speaker != "" ==> rest == p.segment.speaker + ": " + p.segment.text + "\n"
  {
    digits := Decimal(p.n);
    ValueOfDecimal(p.n);
    rest := (if p.segment.speaker != "" then p.segment.speaker + ": " else "") + p.segment.text + "\n";
    assert Signed(p.n) == digits;
    assert "" + p.segment.text == p.segment.text;
    LineText(digits, if p.segment.speaker != "" then p.segment.speaker + ": " else "", p.segment.text);
  }

  lemma LineText(digits: string, speaker: string, text: string)
    ensures "[" + digits + "] " + speaker + text + "\n" == "[" + digits + "] " + (speaker + text + "\n")
  {
  }

  // ----- PrepareDocuments

  datatype TemplateSection = TemplateSection(heading: string, instruction: string)

  datatype Mode = CrossAnalysis | SingleNoteSummary

  datatype Preparation =
    | EmptyDocuments
    | EmptyTemplate
    | NeedsOneDocument
    | Prepared(corpus: string, sectionPrompts: seq<string>, sources: seq<SourceRef>, generations: map<string, int>)

  /** The prompt that is measured: the corpus, one section, and the output instruction. */
  function SectionPrompt(corpus: string, section: TemplateSection, wording: Wording): string {
    corpus + "\n\n## The section to write\n" + section.heading + EM_DASH + section.instruction
    + "\n\n## Output\n" + wording.output
  }

  /** The measured prompt carries the corpus in front, and 43 bytes beside its variable parts. */
  lemma PromptIsMeasured(corpus: string, section: TemplateSection, wording: Wording)
    ensures var p := SectionPrompt(corpus, section, wording);
            && corpus <= p
            && |p| == |corpus| + |section.heading| + |section.instruction| + |wording.output| + 43
  {
  }

  /** A dash between spaces, in the bytes of its encoding. */
  const EM_DASH := " \U{E2}\U{80}\U{94} "

  /** The generation of a note: that of its last document. */
  function GenerationsOf(docs: seq<Document>): map<string, int> {
    if docs == [] then map[]
    else
      var last := docs[|docs| - 1];
      GenerationsOf(docs[..|docs| - 1])[last.noteId := last.transcriptGeneration]
  }

  method RecordGenerations(docs: seq<Document>) returns (generations: map<string, int>)
    ensures generations == GenerationsOf(docs)
  {
    generations := map[];
    for d := 0 to |docs|
      invariant generations == GenerationsOf(docs[..d])
    {
      generations := generations[docs[d].noteId := docs[d].transcriptGeneration];
      assert docs[..d + 1][..d] == docs[..d];
    }
    assert docs[..|docs|] == docs;
  }

  /** Each note of the input is recorded, with the generation of its last document. */
  lemma {:induction false} GenerationsAreTheLast(docs: seq<Document>, noteId: string)
    ensures noteId in GenerationsOf(docs) <==> exists d :: 0 <= d < |docs| && docs[d].noteId == noteId
    ensures noteId in GenerationsOf(docs) ==>
              exists d :: 0 <= d < |docs| && docs[d].noteId == noteId
                && GenerationsOf(docs)[noteId] == docs[d].transcriptGeneration
                && forall e :: d < e < |docs| ==> docs[e].noteId != noteId
  {
    if docs != [] {
      var front, last := docs[..|docs| - 1], |docs| - 1;
      GenerationsAreTheLast(front, noteId);
      if docs[last].noteId == noteId {
        assert GenerationsOf(docs)[noteId] == docs[last].transcriptGeneration;
      } else if noteId in GenerationsOf(front) {
        var d :| 0 <= d < |front| && front[d].noteId == noteId
                 && GenerationsOf(front)[noteId] == front[d].transcriptGeneration
                 && forall e :: d < e < |front| ==> front[e].noteId != noteId;
        assert docs[d] == front[d];
      }
    }
  }

  /** `focus` is the run instruction without surrounding white space. */
  method PrepareDocuments(docs: seq<Document>, sections: seq<TemplateSection>, mode: Mode,
                          focus: string, wording: Wording)
    returns (p: Preparation, ghost places: seq<Place>, ghost pieces: seq<Piece>)
    ensures p.EmptyDocuments? <==> docs == []
    ensures p.EmptyTemplate? <==> docs != [] && sections == []
    ensures p.NeedsOneDocument? <==> docs != [] && sections != [] && mode.SingleNoteSummary? && |docs| != 1
    ensures p.Prepared? ==> NumbersFrom(docs, p.sources, places) && p.generations == GenerationsOf(docs)
    ensures p.Prepared? ==>
              forall d, i :: 0 <= d < |docs| && 0 <= i < |docs[d].segments| ==> Cited(p.sources, docs[d].noteId, i)
    ensures p.Prepared? && mode.SingleNoteSummary? ==> p.corpus == docs[0].notesMarkdown && p.sectionPrompts == []
    ensures p.Prepared? && mode.CrossAnalysis? ==>
              && p.corpus == RenderAll(pieces) && Shows(Lines(pieces), docs)
              && (forall q :: q in pieces ==> Resolves(p.sources, q))
              && |p.sectionPrompts| == |sections|
              && forall k :: 0 <= k < |sections| ==>
                   p.sectionPrompts[k] == SectionPrompt(p.corpus, sections[k], wording)
  {
    places, pieces := [], [];
    if docs == [] {
      return EmptyDocuments, places, pieces;
    }
    if sections == [] {
      return EmptyTemplate, places, pieces;
    }
    if mode == SingleNoteSummary && |docs| != 1 {
      return NeedsOneDocument, places, pieces;
    }
    var sources;
    sources, places := AssignNumbers(docs);
    var generations := RecordGenerations(docs);
    if mode == SingleNoteSummary {
      return Prepared(docs[0].notesMarkdown, [], sources, generations), places, pieces;
    }
    var built := BuildCorpus(docs, focus, wording, sources, places);
    pieces := built;
    var corpus, prompts := RenderAll(built), [];
    for k := 0 to |sections|
      invariant |prompts| == k
      invariant forall j :: 0 <= j < k ==> prompts[j] == SectionPrompt(corpus, sections[j], wording)
    {
      prompts := prompts + [SectionPrompt(corpus, sections[k], wording)];
    }
    return Prepared(corpus, prompts, sources, generations), places, pieces;
  }

  // ----- validateSections

  datatype Section = Section(heading: string, content: string)

  datatype SectionVerdict = SectionsAccepted | SectionMismatch | EmptyOutput

  /** Nothing but white space; the characters of a section are code points. */
  predicate Blank(s: string) {
    forall c :: c in s ==> IsSpace(c)
  }

  /** What the strict validation asks of section i. */
  predicate SectionFits(want: seq<string>, got: seq<Section>, i: nat)
    requires i < |got| == |want|
  {
    got[i].heading == want[i] && got[i].heading !in want[..i] && !Blank(got[i].content)
  }

  /** Section i is the first that does not fit, and only because it is blank. */
  ghost predicate FirstBlank(want: seq<string>, got: seq<Section>, i: nat)
    requires i < |got| == |want|
  {
    && got[i].heading == want[i] && got[i].heading !in want[..i] && Blank(got[i].content)
    && forall j :: 0 <= j < i ==> SectionFits(want, got, j)
  }

  /** When the first section that does not fit, if any, fails by its heading, no blank one comes first. */
  lemma NotBlankFirst(want: seq<string>, got: seq<Section>, i: nat)
    requires i <= |got| == |want| && forall j :: 0 <= j < i ==> SectionFits(want, got, j)
    requires i < |got| ==> got[i].heading != want[i] || got[i].heading in want[..i]
    ensures i < |got| ==> !SectionFits(want, got, i)
    ensures forall k :: 0 <= k < |got| ==> !FirstBlank(want, got, k)
  {
    forall k | 0 <= k < |got| ensures !FirstBlank(want, got, k) {
      if k < i {
        assert SectionFits(want, got, k);
      } else {
        assert !SectionFits(want, got, i);
      }
    }
  }

  /** A response passes exactly when it repeats the template's headings, all distinct, with content everywhere. */
  method ValidateSections(want: seq<string>, got: seq<Section>) returns (v: SectionVerdict)
    ensures v.SectionsAccepted? <==> |got| == |want| && forall i :: 0 <= i < |got| ==> SectionFits(want, got, i)
    ensures v.EmptyOutput? <==> |got| == |want| && exists i :: 0 <= i < |got| && FirstBlank(want, got, i)
  {
    if |got| != |want| {
      return SectionMismatch;
    }
    var seen: set<string> := {};
    for i := 0 to |got|
      invariant forall j :: 0 <= j < i ==> SectionFits(want, got, j)
      invariant forall h :: h in seen <==> h in want[..i]
    {
      assert SectionFits(want, got, i) <==>
             got[i].heading == want[i] && got[i].heading !in seen && !Blank(got[i].content);
      if got[i].heading != want[i] {
        NotBlankFirst(want, got, i);
        return SectionMismatch;
      }
      if got[i].heading in seen {
        NotBlankFirst(want, got, i);
        return SectionMismatch;
      }
      seen := seen + {got[i].heading};
      assert want[..i + 1] == want[..i] + [want[i]];
      if Blank(got[i].content) {
        assert FirstBlank(want, got, i);
        return EmptyOutput;
      }
    }
    NotBlankFirst(want, got, |got|);
    return SectionsAccepted;
  }

  /** The response passes the validation. */
  ghost predicate Passes(want: seq<string>, got: seq<Section>) {
    |got| == |want| && forall i :: 0 <= i < |got| ==> SectionFits(want, got, i)
  }

  /** A template can be answered at all exactly when its headings are distinct. */
  lemma AnswerableIffDistinct(want: seq<string>)
    ensures (exists got :: Passes(want, got)) <==> forall i, j :: 0 <= i < j < |want| ==> want[i] != want[j]
  {
    if got :| Passes(want, got) {
      forall i, j | 0 <= i < j < |want| ensures want[i] != want[j] {
        assert SectionFits(want, got, j) && want[..j][i] == want[i];
      }
    }
    if forall i, j :: 0 <= i < j < |want| ==> want[i] != want[j] {
      var answer := seq(|want|, i requires 0 <= i < |want| => Section(want[i], "-"));
      forall i | 0 <= i < |want| ensures SectionFits(want, answer, i) {
        assert '-' in answer[i].content && !IsSpace('-');
      }
      assert Passes(want, answer);
    }
  }
}
