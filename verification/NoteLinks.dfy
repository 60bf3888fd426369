/** Titles mentioned in a note as [[title]] (internal/notelinks/notelinks.go). */
module NoteLinks {
  import opened Options
  import opened Text

  function TrimLeft(s: string): string {
    if s != [] && IsSpace(s[0]) then TrimLeft(s[1..]) else s
  }

  function TrimRight(s: string): string {
    if s != [] && IsSpace(s[|s| - 1]) then TrimRight(s[..|s| - 1]) else s
  }

  function Trim(s: string): string {
    TrimRight(TrimLeft(s))
  }

  lemma {:induction false} TrimLeftKeeps(s: string)
    ensures |TrimLeft(s)| <= |s|
    ensures TrimLeft(s) == s <==> s == "" || !IsSpace(s[0])
    ensures TrimLeft(s) == "" || !IsSpace(TrimLeft(s)[0])
  {
    if s != "" && IsSpace(s[0]) {
      TrimLeftKeeps(s[1..]);
    }
  }

  lemma {:induction false} TrimRightKeeps(s: string)
    ensures |TrimRight(s)| <= |s| && TrimRight(s) <= s
    ensures TrimRight(s) == s <==> s == "" || !IsSpace(s[|s| - 1])
    ensures TrimRight(s) == "" || !IsSpace(TrimRight(s)[|TrimRight(s)| - 1])
    decreases |s|
  {
    if s != "" && IsSpace(s[|s| - 1]) {
      TrimRightKeeps(s[..|s| - 1]);
    }
  }

  /** A trimmed text has no white space at either end, and such a text is left alone. */
  lemma TrimmedIff(s: string)
    ensures Trim(s) == "" || (!IsSpace(Trim(s)[0]) && !IsSpace(Trim(s)[|Trim(s)| - 1]))
    ensures Trim(s) == s <==> s == "" || (!IsSpace(s[0]) && !IsSpace(s[|s| - 1]))
  {
    TrimLeftKeeps(s);
    TrimRightKeeps(TrimLeft(s));
  }

  predicate StartsWith(s: string, c: char, d: char) {
    |s| >= 2 && s[0] == c && s[1] == d
  }

  /** Where the first closing delimiter starts. */
  function FindClose(s: string): (r: Option<nat>)
    ensures r.Some? ==> r.value + 2 <= |s| && StartsWith(s[r.value..], ']', ']')
  {
    if |s| < 2 then None
    else if StartsWith(s, ']', ']') then Some(0)
    else match FindClose(s[1..])
      case None => None
      case Some(k) => assert s[k + 1..] == s[1..][k..]; Some(k + 1)
  }

  /** An opener behind a backslash. */
  predicate EscapedOpener(s: string) {
    |s| > 2 && s[0] == '\\' && s[1] == '[' && s[2] == '['
  }

  function Kept(title: string): seq<string> {
    if Trim(title) != "" then [Trim(title)] else []
  }

  /** The mentions in the rest of a note. */
  function Scan(s: string): seq<string>
    decreases |s|
  {
    if |s| < 2 then []
    else if EscapedOpener(s) then Scan(s[3..])
    else if StartsWith(s, '[', '[') then
      match FindClose(s[2..])
      case None => Scan(s[2..])
      case Some(k) => Kept(s[2..2 + k]) + Scan(s[k + 4..])
    else Scan(s[1..])
  }

  /** Finding a substring from a position, as the library does it. */
  method IndexClose(body: string, from: nat) returns (r: int)
    requires from <= |body|
    ensures r == match FindClose(body[from..]) case None => -1 case Some(k) => k as int
  {
    var k := from;
    while k + 2 <= |body|
      invariant from <= k <= |body|
      invariant (match FindClose(body[from..]) case None => FindClose(body[k..]).None?
                 case Some(n) => FindClose(body[k..]) == Some(from + n - k) && from + n >= k)
      decreases |body| - k
    {
      assert body[k..][0] == body[k] && body[k..][1] == body[k + 1] && body[k..][1..] == body[k + 1..];
      if body[k] == ']' && body[k + 1] == ']' {
        return k - from;
      }
      k := k + 1;
    }
    return -1;
  }

  /** What a position of the note holds. */
  datatype Found = AnEscape | AnOpener | NothingHere

  function Look(body: string, i: nat): Found
    requires i + 1 < |body|
  {
    if body[i] == '\\' && i + 2 < |body| && body[i + 1] == '[' && body[i + 2] == '[' then AnEscape
    else if body[i] == '[' && body[i + 1] == '[' then AnOpener
    else NothingHere
  }

  lemma ScanEscape(body: string, i: nat)
    requires i + 1 < |body| && Look(body, i).AnEscape?
    ensures Scan(body[i..]) == Scan(body[i + 3..])
  {
    assert body[i..][3..] == body[i + 3..];
  }

  lemma ScanNothing(body: string, i: nat)
    requires i + 1 < |body| && Look(body, i).NothingHere?
    ensures Scan(body[i..]) == Scan(body[i + 1..])
  {
    assert body[i..][1..] == body[i + 1..];
  }

  lemma ScanOpener(body: string, i: nat, close: int)
    requires i + 1 < |body| && Look(body, i).AnOpener?
    requires match FindClose(body[i + 2..]) case None => close < 0 case Some(k) => close == k
    ensures close < 0 ==> Scan(body[i..]) == Scan(body[i + 2..])
    ensures close >= 0 ==> i + close + 4 <= |body|
                           && Scan(body[i..]) == Kept(body[i + 2..i + 2 + close]) + Scan(body[i + close + 4..])
  {
    var rest := body[i..];
    assert rest[2..] == body[i + 2..];
    if close >= 0 {
      assert rest[2..2 + close] == body[i + 2..i + 2 + close];
      assert rest[close + 4..] == body[i + close + 4..];
    }
  }

  lemma ScanEnd(body: string, i: nat)
    requires i <= |body| <= i + 1
    ensures Scan(body[i..]) == []
  {
  }

  lemma OpenerTurn(body: string, i: nat, close: int, found: seq<string>, next: nat)
    requires i + 1 < |body| && Look(body, i).AnOpener?
    requires match FindClose(body[i + 2..]) case None => close < 0 case Some(k) => close == k
    requires next == if close < 0 then i + 2 else i + close + 4
    requires close >= 0 ==> next <= |body|
    requires found == if close < 0 then [] else Kept(body[i + 2..i + 2 + close])
    ensures i < next <= |body| && Scan(body[i..]) == found + Scan(body[next..])
  {
    ScanOpener(body, i, close);
  }

  /** The turn at an opener: the mention, and where to go on. */
  method TurnAtOpener(body: string, i: nat) returns (found: seq<string>, next: nat)
    requires i + 1 < |body| && Look(body, i).AnOpener?
    ensures i < next <= |body| && Scan(body[i..]) == found + Scan(body[next..])
  {
    var closeIdx := IndexClose(body, i + 2);
    found, next := [], i + 2;
    if closeIdx >= 0 {
      var title := Trim(body[i + 2..i + 2 + closeIdx]);
      next := i + closeIdx + 4;
      if title != "" {
        found := [title];
      }
    }
    OpenerTurn(body, i, closeIdx, found, next);
  }

  /** One turn of the loop: what it finds at i, and where it goes on. */
  method Turn(body: string, i: nat) returns (found: seq<string>, next: nat)
    requires i + 1 < |body|
    ensures i < next <= |body| && Scan(body[i..]) == found + Scan(body[next..])
  {
    if body[i] == '\\' && i + 2 < |body| && body[i + 1] == '[' && body[i + 2] == '[' {
      ScanEscape(body, i);
      return [], i + 3;
    }
    if body[i] == '[' && body[i + 1] == '[' {
      found, next := TurnAtOpener(body, i);
      return;
    }
    ScanNothing(body, i);
    return [], i + 1;
  }

  method ParseMentions(body: string) returns (mentions: seq<string>)
    ensures mentions == Scan(body)
  {
    mentions := [];
    var i := 0;
    assert body[0..] == body;
    while i < |body| - 1
      invariant 0 <= i <= |body|
      invariant mentions + Scan(body[i..]) == Scan(body)
      decreases |body| - i
    {
      var found, next := Turn(body, i);
      assert mentions + (found + Scan(body[next..])) == (mentions + found) + Scan(body[next..]);
      mentions := mentions + found;
      i := next;
    }
    ScanEnd(body, i);
  }

  // ----- notes built from mentions, escaped openers and plain text

  datatype Piece = Plain(text: string) | Mention(title: string) | Escaped

  predicate PairAt(s: string, i: nat, c: char, d: char) {
    i + 1 < |s| && s[i] == c && s[i + 1] == d
  }

  ghost predicate Contains(s: string, c: char, d: char) {
    exists i: nat :: PairAt(s, i, c, d)
  }

  lemma TailContains(s: string, c: char, d: char)
    requires s != "" && !Contains(s, c, d)
    ensures !Contains(s[1..], c, d) && !PairAt(s, 0, c, d)
  {
    if i: nat :| PairAt(s[1..], i, c, d) {
      assert PairAt(s, i + 1, c, d);
    }
  }

  /** A title as it is written and read back. */
  ghost predicate ProperTitle(t: string) {
    t != "" && Trim(t) == t && !Contains(t, ']', ']') && t[|t| - 1] != ']'
  }

  /** Plain text opens nothing, not even together with the mention that may follow it. */
  ghost predicate Proper(pieces: seq<Piece>) {
    pieces != [] ==>
      && Proper(pieces[1..])
      && match pieces[0]
         case Escaped => true
         case Mention(title) => ProperTitle(title)
         case Plain(text) =>
           && !Contains(text, '[', '[')
           && (|pieces| > 1 ==>
                 && !pieces[1].Plain?
                 && (pieces[1].Mention? && text != "" ==> text[|text| - 1] != '[' && text[|text| - 1] != '\\'))
  }

  function RenderPiece(p: Piece): string {
    match p
    case Plain(text) => text
    case Mention(title) => "[[" + title + "]]"
    case Escaped => "\\[["
  }

  function Render(pieces: seq<Piece>): string {
    if pieces == [] then "" else RenderPiece(pieces[0]) + Render(pieces[1..])
  }

  function Titles(pieces: seq<Piece>): seq<string> {
    if pieces == [] then []
    else (if pieces[0].Mention? then [pieces[0].title] else []) + Titles(pieces[1..])
  }

  /** The first closing delimiter after a title is the one that was written there. */
  lemma {:induction false} CloseAfterTitle(title: string, rest: string)
    requires !Contains(title, ']', ']') && (title != "" ==> title[|title| - 1] != ']')
    ensures FindClose(title + "]]" + rest) == Some(|title|)
    decreases |title|
  {
    var s := title + "]]" + rest;
    if title == "" {
      assert s == "]]" + rest;
    } else {
      var tail := title[1..];
      assert s[1..] == tail + "]]" + rest;
      assert s[0] == title[0] && (|title| > 1 ==> s[1] == title[1]);
      TailContains(title, ']', ']');
      CloseAfterTitle(tail, rest);
    }
  }

  /** Plain text is skipped up to what follows it. */
  lemma {:induction false} PlainIsSkipped(text: string, rest: string)
    requires !Contains(text, '[', '[')
    requires rest != "" ==>
               rest[0] == '\\'
               || (rest[0] == '[' && (text != "" ==> text[|text| - 1] != '[' && text[|text| - 1] != '\\'))
    ensures Scan(text + rest) == Scan(rest)
    decreases |text|
  {
    var s := text + rest;
    if text == "" {
      assert s == rest;
    } else {
      var tail := text[1..];
      assert s[1..] == tail + rest && s[0] == text[0];
      TailContains(text, '[', '[');
      assert !PairAt(text, 1, '[', '[');
      assert tail != "" ==> tail[|tail| - 1] == text[|text| - 1];
      assert |text| > 1 ==> s[1] == text[1];
      assert |text| > 2 ==> s[2] == text[2];
      assert |text| == 1 && rest != "" ==> s[1] == rest[0];
      assert |text| == 2 && rest != "" ==> s[2] == rest[0];
      PlainIsSkipped(tail, rest);
    }
  }

  /** Any title is read trimmed, and one of white space alone is not a mention. */
  lemma TitleIsTrimmed(title: string, rest: string)
    requires !Contains(title, ']', ']') && (title != "" ==> title[|title| - 1] != ']')
    ensures Scan("[[" + title + "]]" + rest) == (if Trim(title) == "" then [] else [Trim(title)]) + Scan(rest)
  {
    var s := "[[" + title + "]]" + rest;
    assert s[2..] == title + "]]" + rest && s[0..] == s;
    CloseAfterTitle(title, rest);
    ScanOpener(s, 0, |title|);
    assert s[2..2 + |title|] == title && s[|title| + 4..] == rest;
  }

  /** Without a closing delimiter there are no mentions, whatever is opened. */
  lemma {:induction false} UnclosedGivesNothing(s: string)
    requires !Contains(s, ']', ']')
    ensures Scan(s) == [] && FindClose(s).None?
    decreases |s|
  {
    if s != "" {
      TailContains(s, ']', ']');
      UnclosedGivesNothing(s[1..]);
      if |s| >= 2 {
        TailContains(s[1..], ']', ']');
        UnclosedGivesNothing(s[2..]);
        assert s[1..][1..] == s[2..];
        if |s| >= 3 {
          TailContains(s[2..], ']', ']');
          UnclosedGivesNothing(s[3..]);
          assert s[2..][1..] == s[3..];
        }
      }
    }
  }

  lemma MentionIsRead(title: string, rest: string)
    requires ProperTitle(title)
    ensures Scan("[[" + title + "]]" + rest) == [title] + Scan(rest)
  {
    TitleIsTrimmed(title, rest);
  }

  lemma EscapedIsSkipped(rest: string)
    ensures Scan("\\[[" + rest) == Scan(rest)
  {
    var s := "\\[[" + rest;
    assert s[3..] == rest;
  }

  /** Reading such a note gives exactly its titles, in order; escaped openers give nothing. */
  lemma {:induction false} MentionsReadBack(pieces: seq<Piece>)
    requires Proper(pieces)
    ensures Scan(Render(pieces)) == Titles(pieces)
    decreases |pieces|
  {
    if pieces != [] {
      var rest := Render(pieces[1..]);
      MentionsReadBack(pieces[1..]);
      match pieces[0]
      case Plain(text) =>
        if |pieces| > 1 {
          FirstCharacter(pieces[1..]);
        }
        PlainIsSkipped(text, rest);
      case Mention(title) => MentionIsRead(title, rest);
      case Escaped => EscapedIsSkipped(rest);
    }
  }

  lemma FirstCharacter(pieces: seq<Piece>)
    requires pieces != [] && !pieces[0].Plain?
    ensures Render(pieces) != "" && Render(pieces)[0] == if pieces[0].Mention? then '[' else '\\'
  {
  }
}
