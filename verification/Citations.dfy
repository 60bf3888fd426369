/** Citation markers in the text of a response (internal/chat/citations.go). */
module Citations {
  import opened Options
  import opened Text

  // ----- the scanner: leftmost matches of a bracketed run of digits

  /** The end of the run of digits that starts at i. */
  function DigitsEnd(text: string, i: nat): (j: nat)
    requires i <= |text|
    ensures i <= j <= |text| && AllDigits(text[i..j])
    ensures j < |text| ==> !IsDigit(text[j])
    decreases |text| - i
  {
    if i < |text| && IsDigit(text[i]) then
      var j := DigitsEnd(text, i + 1);
      assert text[i..j] == [text[i]] + text[i + 1..j];
      j
    else i
  }

  /** Whether a marker starts at i, and then where its digits end. */
  predicate MarkerAt(text: string, i: nat) {
    && i < |text| && text[i] == '['
    && var j := DigitsEnd(text, i + 1);
       i + 1 < j < |text| && text[j] == ']'
  }

  /** The digits of the markers from i on. */
  function MarkersFrom(text: string, i: nat): (markers: seq<string>)
    requires i <= |text|
    ensures forall m :: m in markers ==> m != [] && AllDigits(m)
    decreases |text| - i
  {
    if i == |text| then []
    else if MarkerAt(text, i) then
      var j := DigitsEnd(text, i + 1);
      [text[i + 1..j]] + MarkersFrom(text, j + 1)
    else MarkersFrom(text, i + 1)
  }

  // ----- the number of a marker

  const LIMIT := 0x4000_0000

  lemma {:induction false} ValueGrows(digits: string, k: nat)
    requires AllDigits(digits) && k <= |digits|
    ensures AllDigits(digits[..k]) && Value(digits[..k]) <= Value(digits)
    decreases |digits| - k
  {
    if k == |digits| {
      assert digits[..k] == digits;
    } else {
      ValueGrows(digits, k + 1);
      assert digits[..k + 1][..k] == digits[..k];
    }
  }

  /** The bounded parser is exact: it gives the value of the digits, or nothing when that exceeds 2^30. */
  method ParseMarkerNumber(digits: string) returns (r: Option<nat>)
    requires AllDigits(digits)
    ensures r == if Value(digits) <= LIMIT then Some(Value(digits)) else None
  {
    var n := 0;
    for k := 0 to |digits|
      invariant n == Value(digits[..k]) <= LIMIT
    {
      n := n * 10 + DigitValue(digits[k]);
      assert digits[..k + 1][..k] == digits[..k];
      ValueGrows(digits, k + 1);
      if n > LIMIT {
        return None;
      }
    }
    assert digits[..|digits|] == digits;
    return Some(n);
  }

  // ----- the citations

  datatype TranscriptRef = TranscriptRef(noteId: string, segmentIndex: int, startMs: int, snippet: string)

  datatype Source = Source(n: nat, noteId: string, segmentIndex: int, timestamp: int, snippet: string)

  function SourceFor(sources: seq<TranscriptRef>, n: nat): Source
    requires 1 <= n <= |sources|
  {
    var ref := sources[n - 1];
    Source(n, ref.noteId, ref.segmentIndex, ref.startMs, ref.snippet)
  }

  /** The numbers that a list of markers cites: in range, each once, where it first appears. */
  function Cited(markers: seq<string>, limit: nat): seq<nat>
    requires forall m :: m in markers ==> AllDigits(m)
  {
    if markers == [] then []
    else
      var front := Cited(markers[..|markers| - 1], limit);
      var v := Value(markers[|markers| - 1]);
      if 1 <= v <= limit && v <= LIMIT && v !in front then front + [v] else front
  }

  /** Marker k is the first with its value, and the value is in range. */
  ghost predicate CitesFirst(markers: seq<string>, limit: nat, k: nat)
    requires k < |markers| && forall m :: m in markers ==> AllDigits(m)
  {
    && 1 <= Value(markers[k]) <= limit && Value(markers[k]) <= LIMIT
    && forall j :: 0 <= j < k ==> Value(markers[j]) != Value(markers[k])
  }

  lemma CitedSnoc(markers: seq<string>, last: string, limit: nat)
    requires (forall m :: m in markers ==> AllDigits(m)) && AllDigits(last)
    ensures var cited, v := Cited(markers, limit), Value(last);
            Cited(markers + [last], limit) ==
            if 1 <= v <= limit && v <= LIMIT && v !in cited then cited + [v] else cited
  {
    assert (markers + [last])[..|markers|] == markers;
  }

  /** The cited numbers are those of the markers at these increasing positions, each the first of its value. */
  ghost predicate FirstAt(markers: seq<string>, limit: nat, cited: seq<nat>, positions: seq<nat>)
    requires forall m :: m in markers ==> AllDigits(m)
  {
    && |positions| == |cited|
    && (forall i :: 0 <= i < |cited| ==>
          positions[i] < |markers| && CitesFirst(markers, limit, positions[i])
          && cited[i] == Value(markers[positions[i]]))
    && (forall i, j :: 0 <= i < j < |cited| ==> positions[i] < positions[j])
  }

  /** Every value in range that a marker has is cited. */
  ghost predicate NoneMissing(markers: seq<string>, limit: nat, cited: seq<nat>)
    requires forall m :: m in markers ==> AllDigits(m)
  {
    forall k :: 0 <= k < |markers| && 1 <= Value(markers[k]) <= limit && Value(markers[k]) <= LIMIT ==>
      Value(markers[k]) in cited
  }

  lemma FirstStays(markers: seq<string>, last: string, limit: nat, cited: seq<nat>, positions: seq<nat>)
    requires (forall m :: m in markers ==> AllDigits(m)) && AllDigits(last)
    requires FirstAt(markers, limit, cited, positions)
    ensures FirstAt(markers + [last], limit, cited, positions)
  {
    forall i | 0 <= i < |cited|
      ensures CitesFirst(markers + [last], limit, positions[i])
    {
      assert CitesFirst(markers, limit, positions[i]);
    }
  }

  lemma FirstJoins(markers: seq<string>, last: string, limit: nat, cited: seq<nat>, positions: seq<nat>)
    requires (forall m :: m in markers ==> AllDigits(m)) && AllDigits(last)
    requires FirstAt(markers, limit, cited, positions) && NoneMissing(markers, limit, cited)
    requires 1 <= Value(last) <= limit && Value(last) <= LIMIT && Value(last) !in cited
    ensures FirstAt(markers + [last], limit, cited + [Value(last)], positions + [|markers|])
  {
    FirstStays(markers, last, limit, cited, positions);
    assert CitesFirst(markers + [last], limit, |markers|);
  }

  lemma NoneMissingOn(markers: seq<string>, last: string, limit: nat, cited: seq<nat>, longer: seq<nat>)
    requires (forall m :: m in markers ==> AllDigits(m)) && AllDigits(last)
    requires NoneMissing(markers, limit, cited) && forall v :: v in cited ==> v in longer
    requires 1 <= Value(last) <= limit && Value(last) <= LIMIT ==> Value(last) in longer
    ensures NoneMissing(markers + [last], limit, longer)
  {
  }

  lemma OneMarkerMore(markers: seq<string>, last: string, limit: nat, positions: seq<nat>) returns (longer: seq<nat>)
    requires (forall m :: m in markers ==> AllDigits(m)) && AllDigits(last)
    requires var cited := Cited(markers, limit);
             FirstAt(markers, limit, cited, positions) && NoneMissing(markers, limit, cited)
    ensures var cited := Cited(markers + [last], limit);
            FirstAt(markers + [last], limit, cited, longer) && NoneMissing(markers + [last], limit, cited)
  {
    var cited := Cited(markers, limit);
    CitedSnoc(markers, last, limit);
    NoneMissingOn(markers, last, limit, cited, Cited(markers + [last], limit));
    if 1 <= Value(last) <= limit && Value(last) <= LIMIT && Value(last) !in cited {
      FirstJoins(markers, last, limit, cited, positions);
      longer := positions + [|markers|];
    } else {
      FirstStays(markers, last, limit, cited, positions);
      longer := positions;
    }
  }

  /**
   * What Cited means: at increasing positions, the first markers of their values; and
   * every value in range occurs.
   */
  lemma {:induction false} CitedIsFirstAppearances(markers: seq<string>, limit: nat) returns (positions: seq<nat>)
    requires forall m :: m in markers ==> AllDigits(m)
    ensures FirstAt(markers, limit, Cited(markers, limit), positions)
    ensures NoneMissing(markers, limit, Cited(markers, limit))
  {
    if markers == [] {
      positions := [];
    } else {
      var front, last := markers[..|markers| - 1], markers[|markers| - 1];
      assert markers == front + [last];
      var before := CitedIsFirstAppearances(front, limit);
      positions := OneMarkerMore(front, last, limit, before);
    }
  }

  /** The markers so far have been turned into the sources they cite. */
  ghost predicate Resolved(sources: seq<TranscriptRef>, done: seq<string>, out: seq<Source>, seen: set<nat>)
    requires forall m :: m in done ==> AllDigits(m)
  {
    var cited := Cited(done, |sources|);
    && |out| == |cited|
    && (forall k :: 0 <= k < |out| ==> 1 <= cited[k] <= |sources| && out[k] == SourceFor(sources, cited[k]))
    && (forall v :: 1 <= v <= |sources| ==> (v in seen <==> v in cited))
  }

  /** One turn of the loop over the markers. */
  method ResolveMarker(digits: string, sources: seq<TranscriptRef>, before: seq<Source>, known: set<nat>,
                       ghost done: seq<string>)
    returns (out: seq<Source>, seen: set<nat>)
    requires AllDigits(digits) && forall m :: m in done ==> AllDigits(m)
    requires Resolved(sources, done, before, known)
    ensures Resolved(sources, done + [digits], out, seen)
  {
    out, seen := before, known;
    CitedSnoc(done, digits, |sources|);
    var r := ParseMarkerNumber(digits);
    if r.Some? && r.value !in seen {
      seen := seen + {r.value};
      if 1 <= r.value <= |sources| {
        out := out + [SourceFor(sources, r.value)];
      }
    }
  }

  method ParseCitations(text: string, sources: seq<TranscriptRef>) returns (out: seq<Source>)
    ensures var cited := Cited(MarkersFrom(text, 0), |sources|);
            && |out| == |cited|
            && forall k :: 0 <= k < |out| ==>
                 && 1 <= cited[k] <= |sources|
                 && var ref := sources[cited[k] - 1];
                    out[k] == Source(cited[k], ref.noteId, ref.segmentIndex, ref.startMs, ref.snippet)
  {
    ghost var all := MarkersFrom(text, 0);
    out := [];
    var seen: set<nat> := {};
    var i := 0;
    ghost var done: seq<string> := [];
    while i < |text|
      invariant i <= |text| && all == done + MarkersFrom(text, i)
      invariant forall m :: m in done ==> AllDigits(m)
      invariant Resolved(sources, done, out, seen)
      decreases |text| - i
    {
      if MarkerAt(text, i) {
        var j := DigitsEnd(text, i + 1);
        var digits := text[i + 1..j];
        out, seen := ResolveMarker(digits, sources, out, seen, done);
        done := done + [digits];
        i := j + 1;
      } else {
        i := i + 1;
      }
    }
    assert done + [] == done;
  }

  // ----- texts built from fragments and markers

  /** A fragment without brackets, or a marker. */
  datatype Piece = Plain(text: string) | Marker(digits: string)

  predicate WellFormed(p: Piece) {
    match p
    case Plain(text) => '[' !in text && ']' !in text
    case Marker(digits) => digits != [] && AllDigits(digits)
  }

  function Render(pieces: seq<Piece>): string {
    if pieces == [] then ""
    else (match pieces[0]
          case Plain(text) => text
          case Marker(digits) => "[" + digits + "]") + Render(pieces[1..])
  }

  function DigitsOf(pieces: seq<Piece>): seq<string> {
    if pieces == [] then []
    else (match pieces[0]
          case Plain(_) => []
          case Marker(digits) => [digits]) + DigitsOf(pieces[1..])
  }

  lemma {:induction false} PlainHasNoMarkers(text: string, i: nat, end: nat)
    requires i <= end <= |text| && '[' !in text[i..end]
    ensures MarkersFrom(text, i) == MarkersFrom(text, end)
    decreases end - i
  {
    if i < end {
      assert text[i..end][0] == text[i];
      assert text[i + 1..end] == text[i..end][1..];
      PlainHasNoMarkers(text, i + 1, end);
    }
  }

  lemma {:induction false} DigitsEndAt(text: string, i: nat, end: nat)
    requires i <= end <= |text| && AllDigits(text[i..end]) && (end < |text| ==> !IsDigit(text[end]))
    ensures DigitsEnd(text, i) == end
    decreases end - i
  {
    if i < end {
      assert text[i..end][0] == text[i];
      assert text[i + 1..end] == text[i..end][1..];
      DigitsEndAt(text, i + 1, end);
    }
  }

  lemma PlainSkipped(before: string, plain: string, rest: string)
    requires '[' !in plain
    ensures MarkersFrom(before + (plain + rest), |before|) == MarkersFrom(before + plain + rest, |before + plain|)
  {
    var text := before + plain + rest;
    assert text == before + (plain + rest);
    assert text[|before|..|before| + |plain|] == plain;
    PlainHasNoMarkers(text, |before|, |before| + |plain|);
  }

  lemma MarkerFound(before: string, digits: string, rest: string)
    requires digits != [] && AllDigits(digits)
    ensures var longer := before + ("[" + digits + "]");
            MarkersFrom(before + ("[" + digits + "]" + rest), |before|) ==
            [digits] + MarkersFrom(longer + rest, |longer|)
  {
    var text, end := before + ("[" + digits + "]" + rest), |before| + 1 + |digits|;
    assert text == before + ("[" + digits + "]") + rest;
    assert text[|before| + 1..end] == digits && text[|before|] == '[' && text[end] == ']';
    DigitsEndAt(text, |before| + 1, end);
  }

  /** Every marker of such a text is found, in order, and nothing else. */
  lemma {:induction false} RenderedMarkers(before: string, pieces: seq<Piece>)
    requires forall p :: p in pieces ==> WellFormed(p)
    ensures MarkersFrom(before + Render(pieces), |before|) == DigitsOf(pieces)
    decreases |pieces|
  {
    if pieces != [] {
      var rest := pieces[1..];
      assert WellFormed(pieces[0]);
      match pieces[0]
      case Plain(plain) =>
        PlainSkipped(before, plain, Render(rest));
        RenderedMarkers(before + plain, rest);
      case Marker(digits) =>
        MarkerFound(before, digits, Render(rest));
        RenderedMarkers(before + ("[" + digits + "]"), rest);
    }
  }

  lemma RenderedTextMarkers(pieces: seq<Piece>)
    requires forall p :: p in pieces ==> WellFormed(p)
    ensures MarkersFrom(Render(pieces), 0) == DigitsOf(pieces)
  {
    RenderedMarkers("", pieces);
    assert "" + Render(pieces) == Render(pieces);
  }
}
