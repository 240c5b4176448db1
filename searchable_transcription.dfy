/** Timestamped search index over a transcription: the segment texts are
    joined into one string, each kept segment owns a character span of it,
    a match span is mapped back to line indexes by binary search, and a line
    index can be widened backwards or forwards by a time delta. */
module SearchableTranscription {
  import opened Wrappers

  /** The two fields of a TranscriptionSegment that the index reads. */
  datatype Segment = Segment(start: real, text: string)

  /** An IndexedLine: content[start..end] belongs to segment lineIndex. */
  datatype IndexedLine = IndexedLine(start: int, end: int, lineIndex: int)

  /** A SearchableTranscription: the segments, the joined content and the spans. */
  datatype Searchable = Searchable(segments: seq<Segment>, content: string, indexed: seq<IndexedLine>)

  // ---------------------------------------------------------------------
  // Building the index
  // ---------------------------------------------------------------------

  /** `text.replace("\n", " ")`. */
  function Flatten(text: string): (r: string)
    ensures |r| == |text|
    ensures forall i :: 0 <= i < |r| ==> r[i] != '\n'
    ensures forall i :: 0 <= i < |r| && text[i] != '\n' ==> r[i] == text[i]
  {
    seq(|text|, i requires 0 <= i < |text| => if text[i] == '\n' then ' ' else text[i])
  }

  /** The text the k-th kept line contributes: every line but the first is
      preceded by the joining space. */
  function Piece(k: nat, line: string): string {
    if k == 0 then line else " " + line
  }

  /** The spans cut [0, n) into consecutive non-empty pieces. */
  predicate Tiles(ix: seq<IndexedLine>, n: int) {
    && (ix == [] ==> n == 0)
    && (ix != [] ==> ix[0].start == 0 && ix[|ix| - 1].end == n)
    && (forall k :: 0 <= k < |ix| ==> ix[k].start < ix[k].end)
    && (forall k :: 0 < k < |ix| ==> ix[k - 1].end == ix[k].start)
  }

  /** The indexes of the segments whose flattened text is not empty, in order. */
  function Kept(segs: seq<Segment>): seq<int>
    decreases |segs|
  {
    if segs == [] then []
    else
      var n := |segs| - 1;
      Kept(segs[..n]) + (if Flatten(segs[n].text) == [] then [] else [n])
  }

  function LineIndexes(ix: seq<IndexedLine>): (r: seq<int>)
    ensures |r| == |ix|
    ensures forall k :: 0 <= k < |ix| ==> r[k] == ix[k].lineIndex
  {
    seq(|ix|, k requires 0 <= k < |ix| => ix[k].lineIndex)
  }

  /** Kept lists, in strictly increasing order, exactly the segments with text. */
  lemma {:induction false} KeptSpec(segs: seq<Segment>)
    ensures forall k :: 0 <= k < |Kept(segs)| ==>
              0 <= Kept(segs)[k] < |segs| && Flatten(segs[Kept(segs)[k]].text) != []
    ensures forall k :: 0 < k < |Kept(segs)| ==> Kept(segs)[k - 1] < Kept(segs)[k]
    ensures forall j :: 0 <= j < |segs| && Flatten(segs[j].text) != [] ==> j in Kept(segs)
    decreases |segs|
  {
    if segs != [] {
      var n := |segs| - 1;
      KeptSpec(segs[..n]);
      assert forall j :: 0 <= j < n ==> segs[..n][j] == segs[j];
    }
  }

  /** Each span of the index built from segments[..idx] holds its segment's
      flattened text, preceded by the joining space after the first. */
  predicate Pieces(segments: seq<Segment>, idx: nat, content: string, indexed: seq<IndexedLine>)
    requires idx <= |segments|
  {
    forall k :: 0 <= k < |indexed| ==>
      && 0 <= indexed[k].lineIndex < idx
      && 0 <= indexed[k].start <= indexed[k].end <= |content|
      && content[indexed[k].start..indexed[k].end]
         == Piece(k, Flatten(segments[indexed[k].lineIndex].text))
  }

  /** A tiling extended by one more non-empty span is a tiling of the longer text. */
  lemma {:induction false} TilesExtend(ix: seq<IndexedLine>, n: int, len: int, lineIndex: int)
    requires Tiles(ix, n) && len > 0
    ensures Tiles(ix + [IndexedLine(n, n + len, lineIndex)], n + len)
  {
    var ix' := ix + [IndexedLine(n, n + len, lineIndex)];
    forall k | 0 < k < |ix'|
      ensures ix'[k - 1].end == ix'[k].start
    {
      if k < |ix| {
        assert ix'[k - 1] == ix[k - 1] && ix'[k] == ix[k];
      }
    }
  }

  /** A segment with empty text adds nothing to Kept. */
  lemma {:induction false} KeptSkip(segments: seq<Segment>, idx: nat)
    requires idx < |segments| && Flatten(segments[idx].text) == []
    ensures Kept(segments[..idx + 1]) == Kept(segments[..idx])
  {
    assert segments[..idx + 1][..idx] == segments[..idx];
  }

  /** A segment with text appends its index to Kept. */
  lemma {:induction false} KeptAppend(segments: seq<Segment>, idx: nat, indexed: seq<IndexedLine>, l: IndexedLine)
    requires idx < |segments| && Flatten(segments[idx].text) != [] && l.lineIndex == idx
    requires LineIndexes(indexed) == Kept(segments[..idx])
    ensures LineIndexes(indexed + [l]) == Kept(segments[..idx + 1])
  {
    assert segments[..idx + 1][..idx] == segments[..idx];
    assert segments[..idx + 1][idx] == segments[idx];
    assert LineIndexes(indexed + [l]) == LineIndexes(indexed) + [idx];
  }

  /** Appending text leaves every slice of the old text as it was. */
  lemma {:induction false} SliceOfPrefix(a: string, b: string, i: nat, j: nat)
    requires i <= j <= |a|
    ensures (a + b)[i..j] == a[i..j]
  {
    assert forall n :: 0 <= n < j - i ==> (a + b)[i..j][n] == a[i + n];
  }

  /** An old span still reads its piece once more text is appended. */
  lemma {:induction false} PieceStays(segments: seq<Segment>, idx: nat, content: string, indexed: seq<IndexedLine>, line: string, k: nat)
    requires idx < |segments| && k < |indexed|
    requires Pieces(segments, idx, content, indexed)
    ensures 0 <= indexed[k].lineIndex < idx + 1
    ensures 0 <= indexed[k].start <= indexed[k].end <= |content + line|
    ensures (content + line)[indexed[k].start..indexed[k].end]
            == Piece(k, Flatten(segments[indexed[k].lineIndex].text))
  {
    SliceOfPrefix(content, line, indexed[k].start, indexed[k].end);
  }

  /** The appended piece is where the new span says it is, and the old spans still read the same. */
  lemma {:induction false} PiecesAppend(segments: seq<Segment>, idx: nat, content: string, indexed: seq<IndexedLine>, line: string)
    requires idx < |segments| && line == Piece(|indexed|, Flatten(segments[idx].text))
    requires Pieces(segments, idx, content, indexed)
    ensures Pieces(segments, idx + 1, content + line, indexed + [IndexedLine(|content|, |content| + |line|, idx)])
  {
    var content' := content + line;
    var indexed' := indexed + [IndexedLine(|content|, |content| + |line|, idx)];
    forall k | 0 <= k < |indexed'|
      ensures && 0 <= indexed'[k].lineIndex < idx + 1
              && 0 <= indexed'[k].start <= indexed'[k].end <= |content'|
              && content'[indexed'[k].start..indexed'[k].end]
                 == Piece(k, Flatten(segments[indexed'[k].lineIndex].text))
    {
      if k < |indexed| {
        assert indexed'[k] == indexed[k];
        PieceStays(segments, idx, content, indexed, line, k);
      } else {
        assert content'[|content|..|content'|] == line;
      }
    }
  }

  /** The loop state of `from_transcription` after segment idx adds the
      piece line: the spans still tile the text, list the kept segments,
      and each reads its piece. */
  lemma {:induction false} AppendStep(segments: seq<Segment>, idx: nat, content: string, indexed: seq<IndexedLine>, line: string)
    requires idx < |segments| && Flatten(segments[idx].text) != []
    requires line == Piece(|indexed|, Flatten(segments[idx].text))
    requires Tiles(indexed, |content|) && LineIndexes(indexed) == Kept(segments[..idx])
    requires Pieces(segments, idx, content, indexed)
    ensures var l := IndexedLine(|content|, |content| + |line|, idx);
      && Tiles(indexed + [l], |content + line|)
      && LineIndexes(indexed + [l]) == Kept(segments[..idx + 1])
      && Pieces(segments, idx + 1, content + line, indexed + [l])
  {
    var l := IndexedLine(|content|, |content| + |line|, idx);
    TilesExtend(indexed, |content|, |line|, idx);
    KeptAppend(segments, idx, indexed, l);
    PiecesAppend(segments, idx, content, indexed, line);
  }

  /** A segment without text leaves the loop state as it was. */
  lemma {:induction false} SkipStep(segments: seq<Segment>, idx: nat, content: string, indexed: seq<IndexedLine>)
    requires idx < |segments| && Flatten(segments[idx].text) == []
    requires LineIndexes(indexed) == Kept(segments[..idx])
    requires Pieces(segments, idx, content, indexed)
    ensures LineIndexes(indexed) == Kept(segments[..idx + 1])
    ensures Pieces(segments, idx + 1, content, indexed)
  {
    KeptSkip(segments, idx);
  }

  /** One pass of the loop in `from_transcription`: a segment with text
      appends its piece, separated by a space from earlier text, and its
      span; a segment without text changes nothing. */
  method AddSegment(segments: seq<Segment>, idx: nat, content: string, indexed: seq<IndexedLine>, lastIndex: nat)
    returns (content': string, indexed': seq<IndexedLine>, lastIndex': nat)
    requires idx < |segments| && lastIndex == |content|
    requires (lastIndex == 0) == (indexed == [])
    requires Tiles(indexed, |content|) && LineIndexes(indexed) == Kept(segments[..idx])
    requires Pieces(segments, idx, content, indexed)
    ensures lastIndex' == |content'|
    ensures (lastIndex' == 0) == (indexed' == [])
    ensures Tiles(indexed', |content'|) && LineIndexes(indexed') == Kept(segments[..idx + 1])
    ensures Pieces(segments, idx + 1, content', indexed')
  {
    var line := Flatten(segments[idx].text);
    if line == [] {
      SkipStep(segments, idx, content, indexed);
      return content, indexed, lastIndex;
    }
    if lastIndex != 0 {
      line := " " + line;
    }
    assert line == Piece(|indexed|, Flatten(segments[idx].text));
    AppendStep(segments, idx, content, indexed, line);
    indexed' := indexed + [IndexedLine(lastIndex, lastIndex + |line|, idx)];
    content' := content + line;
    lastIndex' := lastIndex + |line|;
  }

  /** `SearchableTranscription.from_transcription`. */
  method FromTranscription(segments: seq<Segment>) returns (st: Searchable)
    ensures st.segments == segments
    ensures Tiles(st.indexed, |st.content|)
    ensures LineIndexes(st.indexed) == Kept(segments)
    ensures forall k :: 0 <= k < |st.indexed| ==>
              && 0 <= st.indexed[k].lineIndex < |segments|
              && 0 <= st.indexed[k].start <= st.indexed[k].end <= |st.content|
              && st.content[st.indexed[k].start..st.indexed[k].end]
                 == Piece(k, Flatten(segments[st.indexed[k].lineIndex].text))
  {
    var content: string := [];
    var indexed: seq<IndexedLine> := [];
    var lastIndex := 0;
    for idx := 0 to |segments|
      invariant lastIndex == |content|
      invariant (lastIndex == 0) == (indexed == [])
      invariant Tiles(indexed, |content|)
      invariant LineIndexes(indexed) == Kept(segments[..idx])
      invariant Pieces(segments, idx, content, indexed)
    {
      content, indexed, lastIndex := AddSegment(segments, idx, content, indexed, lastIndex);
    }
    assert segments[..|segments|] == segments;
    st := Searchable(segments, content, indexed);
  }

  /** Consecutive spans of a tiling are ordered: an earlier span ends no
      later than a later one starts. */
  lemma {:induction false} TilesOrdered(ix: seq<IndexedLine>, n: int, i: nat, j: nat)
    requires Tiles(ix, n)
    requires i < j < |ix|
    ensures ix[i].end <= ix[j].start
    decreases j - i
  {
    if i + 1 < j {
      TilesOrdered(ix, n, i + 1, j);
    }
  }

  // ---------------------------------------------------------------------
  // Mapping a match span to line indexes
  // ---------------------------------------------------------------------

  predicate Sorted(keys: seq<int>) {
    forall i, j :: 0 <= i <= j < |keys| ==> keys[i] <= keys[j]
  }

  /** `bisect.bisect_right` over keys[lo..hi], step for step as CPython runs it. */
  function BisectRight(keys: seq<int>, x: int, lo: nat, hi: nat): (r: nat)
    requires lo <= hi <= |keys|
    ensures lo <= r <= hi
    decreases hi - lo
  {
    if lo >= hi then lo
    else
      var mid := (lo + hi) / 2;
      if x < keys[mid] then BisectRight(keys, x, lo, mid) else BisectRight(keys, x, mid + 1, hi)
  }

  /** `bisect.bisect_left` over keys[lo..hi], step for step as CPython runs it. */
  function BisectLeft(keys: seq<int>, x: int, lo: nat, hi: nat): (r: nat)
    requires lo <= hi <= |keys|
    ensures lo <= r <= hi
    decreases hi - lo
  {
    if lo >= hi then lo
    else
      var mid := (lo + hi) / 2;
      if keys[mid] < x then BisectLeft(keys, x, mid + 1, hi) else BisectLeft(keys, x, lo, mid)
  }

  /** On sorted keys bisect_right returns the partition point for `<= x`. */
  lemma {:induction false} BisectRightSpec(keys: seq<int>, x: int, lo: nat, hi: nat)
    requires lo <= hi <= |keys| && Sorted(keys)
    ensures forall i :: lo <= i < BisectRight(keys, x, lo, hi) ==> keys[i] <= x
    ensures forall i :: BisectRight(keys, x, lo, hi) <= i < hi ==> x < keys[i]
    decreases hi - lo
  {
    if lo < hi {
      var mid := (lo + hi) / 2;
      if x < keys[mid] {
        BisectRightSpec(keys, x, lo, mid);
      } else {
        BisectRightSpec(keys, x, mid + 1, hi);
      }
    }
  }

  /** On sorted keys bisect_left returns the partition point for `< x`. */
  lemma {:induction false} BisectLeftSpec(keys: seq<int>, x: int, lo: nat, hi: nat)
    requires lo <= hi <= |keys| && Sorted(keys)
    ensures forall i :: lo <= i < BisectLeft(keys, x, lo, hi) ==> keys[i] < x
    ensures forall i :: BisectLeft(keys, x, lo, hi) <= i < hi ==> x <= keys[i]
    decreases hi - lo
  {
    if lo < hi {
      var mid := (lo + hi) / 2;
      if keys[mid] < x {
        BisectLeftSpec(keys, x, mid + 1, hi);
      } else {
        BisectLeftSpec(keys, x, lo, mid);
      }
    }
  }

  function Starts(ix: seq<IndexedLine>): (r: seq<int>)
    ensures |r| == |ix|
    ensures forall k :: 0 <= k < |ix| ==> r[k] == ix[k].start
  {
    seq(|ix|, k requires 0 <= k < |ix| => ix[k].start)
  }

  function Ends(ix: seq<IndexedLine>): (r: seq<int>)
    ensures |r| == |ix|
    ensures forall k :: 0 <= k < |ix| ==> r[k] == ix[k].end
  {
    seq(|ix|, k requires 0 <= k < |ix| => ix[k].end)
  }

  /** The first line the match may touch: `max(bisect_right(...) - 1, 0)`. */
  function FirstLine(ix: seq<IndexedLine>, s: int): nat {
    var i0 := BisectRight(Starts(ix), s, 0, |ix|);
    if i0 - 1 > 0 then i0 - 1 else 0
  }

  /** One past the last line the match may touch: `min(bisect_left(...) + 1, len)`. */
  function StopLine(ix: seq<IndexedLine>, s: int, e: int): nat {
    var lo := FirstLine(ix, s);
    if lo <= |ix| then
      var i1 := BisectLeft(Ends(ix), e, lo, |ix|);
      if i1 + 1 < |ix| then i1 + 1 else |ix|
    else lo
  }

  /** `match_to_line_indexes`: the only failure is an empty slice, which
      happens exactly when there are no indexed lines. */
  function MatchToLineIndexes(ix: seq<IndexedLine>, s: int, e: int): (r: Result<seq<int>>)
    ensures r.Err? <==> ix == []
    ensures r.Err? ==> r.error.RuntimeError?
    ensures r.Ok? ==> 1 <= |r.value| <= |ix|
  {
    var lo := FirstLine(ix, s);
    var hi := StopLine(ix, s, e);
    var lines := if lo <= hi <= |ix| then ix[lo..hi] else [];
    if lines == [] then Err(RuntimeError("No indexed lines found, something is wrong"))
    else Ok(LineIndexes(lines))
  }

  /** The line's span and [s, e) share a character. */
  predicate Overlaps(l: IndexedLine, s: int, e: int) {
    l.start < e && s < l.end
  }

  /** Reference definition: the line indexes of every span overlapping [s, e), in order. */
  function OverlapLines(ix: seq<IndexedLine>, s: int, e: int): seq<int> {
    if ix == [] then []
    else (if Overlaps(ix[0], s, e) then [ix[0].lineIndex] else []) + OverlapLines(ix[1..], s, e)
  }

  /** When the overlapping spans are exactly ix[lo..hi], filtering equals slicing. */
  lemma {:induction false} OverlapRange(ix: seq<IndexedLine>, s: int, e: int, lo: nat, hi: nat)
    requires lo <= hi <= |ix|
    requires forall k :: 0 <= k < |ix| ==> (Overlaps(ix[k], s, e) <==> lo <= k < hi)
    ensures OverlapLines(ix, s, e) == LineIndexes(ix[lo..hi])
    decreases |ix|
  {
    if ix != [] {
      var tail := ix[1..];
      var lo' := if lo > 0 then lo - 1 else 0;
      var hi' := if hi > 0 then hi - 1 else 0;
      assert forall k :: 0 <= k < |tail| ==> tail[k] == ix[k + 1];
      OverlapRange(tail, s, e, lo', hi');
      var rest := tail[lo'..hi'];
      if lo == 0 && hi > 0 {
        assert ix[lo..hi] == [ix[0]] + rest;
        LineIndexesCons(ix[0], rest);
      } else {
        assert ix[lo..hi] == rest;
      }
    }
  }

  /** LineIndexes distributes over a leading line. */
  lemma {:induction false} LineIndexesCons(l: IndexedLine, ix: seq<IndexedLine>)
    ensures LineIndexes([l] + ix) == [l.lineIndex] + LineIndexes(ix)
  {
    assert forall k :: 0 < k <= |ix| ==> ([l] + ix)[k] == ix[k - 1];
  }

  /** The starts and the ends of a tiling are both sorted. */
  lemma {:induction false} TilesSorted(ix: seq<IndexedLine>, n: int)
    requires Tiles(ix, n)
    ensures Sorted(Starts(ix)) && Sorted(Ends(ix))
  {
    forall i, j | 0 <= i < j < |ix|
      ensures ix[i].start < ix[j].start && ix[i].end < ix[j].end
    {
      TilesOrdered(ix, n, i, j);
    }
  }

  /** FirstLine is the line whose span holds position s. */
  lemma {:induction false} FirstLineHolds(ix: seq<IndexedLine>, n: int, s: int)
    requires Tiles(ix, n) && 0 <= s < n
    ensures FirstLine(ix, s) < |ix|
    ensures ix[FirstLine(ix, s)].start <= s < ix[FirstLine(ix, s)].end
  {
    TilesSorted(ix, n);
    BisectRightSpec(Starts(ix), s, 0, |ix|);
    var i0 := BisectRight(Starts(ix), s, 0, |ix|);
    assert Starts(ix)[0] == 0;
    var lo := i0 - 1;
    if lo + 1 < |ix| {
      assert Starts(ix)[lo + 1] > s;
    }
  }

  /** StopLine is one past the first line, from FirstLine on, that reaches e. */
  lemma {:induction false} StopLineReaches(ix: seq<IndexedLine>, n: int, s: int, e: int)
    requires Tiles(ix, n) && 0 <= s < e <= n
    requires FirstLine(ix, s) < |ix|
    ensures FirstLine(ix, s) < StopLine(ix, s, e) <= |ix|
    ensures e <= ix[StopLine(ix, s, e) - 1].end
    ensures forall k :: FirstLine(ix, s) <= k < StopLine(ix, s, e) - 1 ==> ix[k].end < e
  {
    TilesSorted(ix, n);
    var lo := FirstLine(ix, s);
    BisectLeftSpec(Ends(ix), e, lo, |ix|);
    assert Ends(ix)[|ix| - 1] == n;
  }

  /** On a tiling, the lines from FirstLine up to StopLine are exactly the
      lines overlapping a match [s, e) inside the content. */
  lemma {:induction false} MatchWindow(ix: seq<IndexedLine>, n: int, s: int, e: int)
    requires Tiles(ix, n) && 0 <= s < e <= n
    ensures FirstLine(ix, s) < StopLine(ix, s, e) <= |ix|
    ensures forall k :: 0 <= k < |ix| ==>
              (Overlaps(ix[k], s, e) <==> FirstLine(ix, s) <= k < StopLine(ix, s, e))
  {
    FirstLineHolds(ix, n, s);
    StopLineReaches(ix, n, s, e);
    var lo := FirstLine(ix, s);
    var last := StopLine(ix, s, e) - 1;
    forall k | 0 <= k < |ix|
      ensures Overlaps(ix[k], s, e) <==> lo <= k <= last
    {
      if k < lo {
        TilesOrdered(ix, n, k, lo);
      } else if k <= last {
        if k > lo {
          assert ix[k - 1].end == ix[k].start;
          TilesOrdered(ix, n, lo, k);
        }
      } else {
        TilesOrdered(ix, n, last, k);
      }
    }
  }

  /** match_to_line_indexes returns exactly the consecutive lines whose spans
      overlap [s, e), for any match inside the content. */
  lemma {:induction false} MatchIsOverlap(ix: seq<IndexedLine>, n: int, s: int, e: int)
    requires Tiles(ix, n) && 0 <= s < e <= n
    ensures MatchToLineIndexes(ix, s, e) == Ok(OverlapLines(ix, s, e))
  {
    MatchWindow(ix, n, s, e);
    OverlapRange(ix, s, e, FirstLine(ix, s), StopLine(ix, s, e));
  }

  /** The joining space in front of line k belongs to line k, not to the line before. */
  lemma {:induction false} JoiningSpaceBelongsToLaterLine(ix: seq<IndexedLine>, n: int, k: nat)
    requires Tiles(ix, n) && 0 < k < |ix|
    ensures MatchToLineIndexes(ix, ix[k].start, ix[k].start + 1) == Ok([ix[k].lineIndex])
  {
    JoiningSpaceLines(ix, n, k);
    MatchOneLine(ix, n, ix[k].start, k);
  }

  /** A match whose overlapping lines are line k alone reports line k. */
  lemma {:induction false} MatchOneLine(ix: seq<IndexedLine>, n: int, s: int, k: nat)
    requires Tiles(ix, n) && 0 <= s && s + 1 <= n && k < |ix|
    requires OverlapLines(ix, s, s + 1) == [ix[k].lineIndex]
    ensures MatchToLineIndexes(ix, s, s + 1) == Ok([ix[k].lineIndex])
  {
    MatchIsOverlap(ix, n, s, s + 1);
  }

  /** Filtering the lines by the character at line k's start keeps line k alone. */
  lemma {:induction false} JoiningSpaceLines(ix: seq<IndexedLine>, n: int, k: nat)
    requires Tiles(ix, n) && 0 < k < |ix|
    ensures 0 <= ix[k].start && ix[k].start + 1 <= n
    ensures OverlapLines(ix, ix[k].start, ix[k].start + 1) == [ix[k].lineIndex]
  {
    var s := ix[k].start;
    JoiningSpaceWindow(ix, n, k);
    OverlapRange(ix, s, s + 1, k, k + 1);
    assert ix[k..k + 1] == [ix[k]];
  }

  /** Only line k overlaps the one character at its start. */
  lemma {:induction false} JoiningSpaceWindow(ix: seq<IndexedLine>, n: int, k: nat)
    requires Tiles(ix, n) && 0 < k < |ix|
    ensures 0 <= ix[k].start && ix[k].start + 1 <= n
    ensures forall j :: 0 <= j < |ix| ==> (Overlaps(ix[j], ix[k].start, ix[k].start + 1) <==> k <= j < k + 1)
  {
    var s := ix[k].start;
    forall j | 0 <= j < |ix|
      ensures Overlaps(ix[j], s, s + 1) <==> k <= j < k + 1
    {
      if j < k { TilesOrdered(ix, n, j, k); }
      if j > k { TilesOrdered(ix, n, k, j); }
    }
    TilesOrdered(ix, n, 0, k);
    if k + 1 < |ix| {
      TilesOrdered(ix, n, k, |ix| - 1);
    }
  }

  // ---------------------------------------------------------------------
  // Exact search
  // ---------------------------------------------------------------------

  /** `str.lower()` on ASCII letters; other characters are left alone. */
  function Lower(s: string): (r: string)
    ensures |r| == |s|
    ensures forall i :: 0 <= i < |r| ==> !('A' <= r[i] <= 'Z')
  {
    seq(|s|, i requires 0 <= i < |s| =>
      if 'A' <= s[i] <= 'Z' then (s[i] as int - 'A' as int + 'a' as int) as char else s[i])
  }

  /** v occurs in text at position i. */
  predicate Occurs(text: string, v: string, i: int) {
    0 <= i && i + |v| <= |text| && text[i..i + |v|] == v
  }

  /** `text.find(v)`: the first position where v occurs, or -1. */
  function Find(text: string, v: string): (r: int)
    ensures -1 <= r
    ensures r >= 0 ==> Occurs(text, v, r)
    decreases |text|
  {
    if |v| <= |text| && text[..|v|] == v then 0
    else if text == [] then -1
    else
      var k := Find(text[1..], v);
      if k < 0 then -1 else k + 1
  }

  /** Find returns the leftmost occurrence, and -1 only when there is none. */
  lemma {:induction false} FindIsLeftmost(text: string, v: string)
    ensures forall i :: 0 <= i && (Find(text, v) < 0 || i < Find(text, v)) ==> !Occurs(text, v, i)
    decreases |text|
  {
    if !(|v| <= |text| && text[..|v|] == v) && text != [] {
      FindIsLeftmost(text[1..], v);
      forall i | 0 < i && i + |v| <= |text|
        ensures Occurs(text, v, i) <==> Occurs(text[1..], v, i - 1)
      {
        assert text[i..i + |v|] == text[1..][i - 1..i - 1 + |v|];
      }
    }
  }

  /** Searching a suffix: positions shift by the offset. */
  lemma {:induction false} OccursInSuffix(text: string, v: string, offset: nat, i: int)
    requires offset <= |text| && 0 <= i
    ensures Occurs(text[offset..], v, i) <==> Occurs(text, v, offset + i)
  {
    if 0 <= i && i + |v| <= |text| - offset {
      assert text[offset..][i..i + |v|] == text[offset + i..offset + i + |v|];
    }
  }

  /** The match spans search_exact visits from `offset` on.  The loop test is
      `idx := find(...)`, so a find result of 0 ends the search just like -1. */
  function ExactSpans(content: string, v: string, offset: nat): seq<(int, int)>
    requires |v| > 0 && offset <= |content|
    decreases |content| - offset
  {
    var idx := Find(content[offset..], v);
    if idx == 0 || idx < 0 then []
    else
      var s := offset + idx;
      var e := s + |v|;
      if offset == e then [] else [(s, e)] + ExactSpans(content, v, e)
  }

  /** The search resumes where the previous match ended (or at `offset`). */
  function ResumeAt(spans: seq<(int, int)>, offset: int, k: nat): int
    requires k <= |spans|
  {
    if k == 0 then offset else spans[k - 1].1
  }

  /** The k-th exact span is an occurrence that starts strictly after the
      point the search resumed from, with no occurrence in between. */
  ghost predicate ExactHit(content: string, v: string, sp: seq<(int, int)>, offset: int, k: nat)
    requires k < |sp|
  {
    && ResumeAt(sp, offset, k) < sp[k].0
    && sp[k].1 == sp[k].0 + |v|
    && Occurs(content, v, sp[k].0)
    && (forall i :: ResumeAt(sp, offset, k) <= i < sp[k].0 ==> !Occurs(content, v, i))
  }

  lemma {:induction false} ExactSpansShape(content: string, v: string, offset: nat)
    requires |v| > 0 && offset <= |content|
    ensures forall k :: 0 <= k < |ExactSpans(content, v, offset)| ==>
              ExactHit(content, v, ExactSpans(content, v, offset), offset, k)
    decreases |content| - offset
  {
    var sp := ExactSpans(content, v, offset);
    var idx := Find(content[offset..], v);
    if idx > 0 {
      var s := offset + idx;
      var e := s + |v|;
      FindIsLeftmost(content[offset..], v);
      OccursInSuffix(content, v, offset, idx);
      forall i | offset <= i < s
        ensures !Occurs(content, v, i)
      {
        OccursInSuffix(content, v, offset, i - offset);
      }
      ExactSpansShape(content, v, e);
      var rest := ExactSpans(content, v, e);
      assert sp == [(s, e)] + rest;
      forall k | 0 <= k < |sp|
        ensures ExactHit(content, v, sp, offset, k)
      {
        if k > 0 {
          assert ExactHit(content, v, rest, e, k - 1);
          assert sp[k] == rest[k - 1];
          assert ResumeAt(sp, offset, k) == ResumeAt(rest, e, k - 1);
        }
      }
    }
  }

  /** Where the search stops: at the resume point after the last match there
      is either no later occurrence at all, or an occurrence right there. */
  lemma {:induction false} ExactSpansStop(content: string, v: string, offset: nat)
    requires |v| > 0 && offset <= |content|
    ensures var sp := ExactSpans(content, v, offset);
      var last := ResumeAt(sp, offset, |sp|);
      Occurs(content, v, last) || forall i :: last <= i ==> !Occurs(content, v, i)
    decreases |content| - offset
  {
    var idx := Find(content[offset..], v);
    FindIsLeftmost(content[offset..], v);
    if idx == 0 {
      OccursInSuffix(content, v, offset, 0);
    } else if idx < 0 {
      forall i | offset <= i
        ensures !Occurs(content, v, i)
      {
        OccursInSuffix(content, v, offset, i - offset);
      }
    } else {
      var e := offset + idx + |v|;
      ExactSpansStop(content, v, e);
      var rest := ExactSpans(content, v, e);
      assert ExactSpans(content, v, offset) == [(offset + idx, e)] + rest;
    }
  }

  /** The quirk of the `idx := find(...)` loop test: when the searched text
      begins with the value, nothing at all is found. */
  lemma {:induction false} MatchAtStartIsNeverFound(content: string, v: string)
    requires |v| > 0 && Occurs(content, v, 0)
    ensures ExactSpans(content, v, 0) == []
  {
    assert content[0..] == content;
  }

  /** The same quirk one match later: in "xaa" the second "a" starts where
      the first ended, so the search for "a" stops after the first. */
  lemma {:induction false} AdjacentMatchIsDropped()
    ensures ExactSpans("xaa", "a", 0) == [(1, 2)]
  {
    var c: string := "xaa";
    assert c[0..] == c && c[1..] == "aa" && c[2..] == "a";
    assert Find("a", "a") == 0;
    assert "aa"[..1] == "a";
    assert Find("aa", "a") == 0;
    assert c[..1] == "x" && c[..1] != "a";
    assert Find(c, "a") == 1;
  }

  /** Maps every match span to its line indexes; the first failure is the result. */
  function MatchAll(ix: seq<IndexedLine>, spans: seq<(int, int)>): Result<seq<seq<int>>> {
    if spans == [] then Ok([])
    else
      var first :- MatchToLineIndexes(ix, spans[0].0, spans[0].1);
      var rest :- MatchAll(ix, spans[1..]);
      Ok([first] + rest)
  }

  /** The results already yielded, followed by those still to come. */
  function Prepend(found: seq<seq<int>>, rest: Result<seq<seq<int>>>): Result<seq<seq<int>>> {
    match rest
    case Ok(more) => Ok(found + more)
    case Err(e) => Err(e)
  }

  lemma {:induction false} PrependNothing(r: Result<seq<seq<int>>>)
    ensures Prepend([], r) == r
  {
    if r.Ok? {
      assert [] + r.value == r.value;
    }
  }

  /** One more span: its lines join the yielded results, or its failure ends the search. */
  lemma {:induction false} PrependStep(ix: seq<IndexedLine>, found: seq<seq<int>>, span: (int, int), tail: seq<(int, int)>)
    ensures var m := MatchToLineIndexes(ix, span.0, span.1);
      && (m.Ok? ==> Prepend(found, MatchAll(ix, [span] + tail)) == Prepend(found + [m.value], MatchAll(ix, tail)))
      && (m.Err? ==> Prepend(found, MatchAll(ix, [span] + tail)) == Err(m.error))
  {
    assert ([span] + tail)[0] == span && ([span] + tail)[1..] == tail;
    var r := MatchAll(ix, tail);
    var m := MatchToLineIndexes(ix, span.0, span.1);
    if r.Ok? && m.Ok? {
      assert found + ([m.value] + r.value) == (found + [m.value]) + r.value;
    }
  }

  lemma {:induction false} PrependDone(ix: seq<IndexedLine>, found: seq<seq<int>>)
    ensures Prepend(found, MatchAll(ix, [])) == Ok(found)
  {
    assert found + [] == found;
  }

  /** On a tiled index, matches inside non-empty content never fail, and
      each non-empty match maps to its overlapping lines. */
  lemma {:induction false} MatchAllIsOverlap(ix: seq<IndexedLine>, n: int, spans: seq<(int, int)>)
    requires Tiles(ix, n)
    requires forall k :: 0 <= k < |spans| ==> 0 <= spans[k].0 <= spans[k].1 <= n && 0 < spans[k].1
    ensures MatchAll(ix, spans).Ok?
    ensures |MatchAll(ix, spans).value| == |spans|
    ensures forall k :: 0 <= k < |spans| && spans[k].0 < spans[k].1 ==>
              MatchAll(ix, spans).value[k] == OverlapLines(ix, spans[k].0, spans[k].1)
    decreases |spans|
  {
    if spans != [] {
      var s, e, tail := spans[0].0, spans[0].1, spans[1..];
      assert forall k :: 0 <= k < |tail| ==> tail[k] == spans[k + 1];
      MatchHead(ix, n, s, e);
      MatchAllIsOverlap(ix, n, tail);
      var m, rest := MatchToLineIndexes(ix, s, e).value, MatchAll(ix, tail).value;
      assert MatchAll(ix, spans) == Ok([m] + rest);
      assert forall k :: 0 < k < |spans| ==> ([m] + rest)[k] == rest[k - 1];
    }
  }

  /** A single span inside the content maps to its overlapping lines. */
  lemma {:induction false} MatchHead(ix: seq<IndexedLine>, n: int, s: int, e: int)
    requires Tiles(ix, n) && 0 <= s <= e <= n && 0 < e
    ensures MatchToLineIndexes(ix, s, e).Ok?
    ensures s < e ==> MatchToLineIndexes(ix, s, e).value == OverlapLines(ix, s, e)
  {
    assert ix != [];
    if s < e {
      MatchIsOverlap(ix, n, s, e);
    }
  }

  /** The content and value as compared: lower-cased unless case-sensitive. */
  function Folded(s: string, caseSensitive: bool): (r: string)
    ensures |r| == |s|
  {
    if caseSensitive then s else Lower(s)
  }

  /** One step of the exact search: a hit past the offset is the next span. */
  lemma {:induction false} ExactSpansStep(content: string, v: string, offset: nat, s: int, e: int)
    requires |v| > 0 && offset <= |content|
    requires Find(content[offset..], v) > 0
    requires s == offset + Find(content[offset..], v) && e == s + |v|
    ensures e <= |content|
    ensures ExactSpans(content, v, offset) == [(s, e)] + ExactSpans(content, v, e)
  {
    var rest := content[offset..];
    assert Occurs(rest, v, Find(rest, v));
    assert offset != e;
  }

  /** `search_exact`: an empty value yields nothing; otherwise the match
      spans of ExactSpans, each mapped to its line indexes.  The source's
      empty-match guard (`offset == match_end`) cannot fire for a non-empty
      value and has no counterpart here. */
  method SearchExact(st: Searchable, value: string, caseSensitive: bool) returns (r: Result<seq<seq<int>>>)
    ensures value == [] ==> r == Ok([])
    ensures value != [] ==>
      r == MatchAll(st.indexed, ExactSpans(Folded(st.content, caseSensitive), Folded(value, caseSensitive), 0))
  {
    if value == [] {
      return Ok([]);
    }
    var content := Folded(st.content, caseSensitive);
    var v := Folded(value, caseSensitive);
    ghost var all := MatchAll(st.indexed, ExactSpans(content, v, 0));
    var found: seq<seq<int>> := [];
    var offset: nat := 0;
    PrependNothing(all);
    while true
      invariant offset <= |content|
      invariant all == Prepend(found, MatchAll(st.indexed, ExactSpans(content, v, offset)))
      decreases |content| - offset
    {
      var idx := Find(content[offset..], v);
      if idx == 0 || idx < 0 {
        assert ExactSpans(content, v, offset) == [];
        PrependDone(st.indexed, found);
        return Ok(found);
      }
      var matchStart := offset + idx;
      var matchEnd := matchStart + |v|;
      ExactSpansStep(content, v, offset, matchStart, matchEnd);
      PrependStep(st.indexed, found, (matchStart, matchEnd), ExactSpans(content, v, matchEnd));
      var lines :- MatchToLineIndexes(st.indexed, matchStart, matchEnd);
      found := found + [lines];
      offset := matchEnd;
    }
  }

  /** Searching a tiled index never fails, and every result lists the lines
      overlapping one match of the (folded) value. */
  lemma {:induction false} SearchExactSucceeds(st: Searchable, value: string, caseSensitive: bool)
    requires Tiles(st.indexed, |st.content|) && value != []
    ensures var c := Folded(st.content, caseSensitive);
      var v := Folded(value, caseSensitive);
      var sp := ExactSpans(c, v, 0);
      var r := MatchAll(st.indexed, sp);
      && r.Ok? && |r.value| == |sp|
      && forall k :: 0 <= k < |sp| ==>
           Occurs(c, v, sp[k].0) && r.value[k] == OverlapLines(st.indexed, sp[k].0, sp[k].1)
  {
    var c := Folded(st.content, caseSensitive);
    var v := Folded(value, caseSensitive);
    var sp := ExactSpans(c, v, 0);
    ExactSpansShape(c, v, 0);
    forall k | 0 <= k < |sp|
      ensures 0 <= sp[k].0 < sp[k].1 <= |st.content| && Occurs(c, v, sp[k].0)
    {
      assert ExactHit(c, v, sp, 0, k);
    }
    MatchAllIsOverlap(st.indexed, |st.content|, sp);
  }

  /** The match spans of the corrected exact search, whose loop goes on for
      every hit find reports (idx >= 0), so that a hit right at the resume
      point is kept. */
  function FixedSpans(content: string, v: string, offset: nat): seq<(int, int)>
    requires |v| > 0 && offset <= |content|
    decreases |content| - offset
  {
    var idx := Find(content[offset..], v);
    if idx < 0 then []
    else
      var s := offset + idx;
      [(s, s + |v|)] + FixedSpans(content, v, s + |v|)
  }

  /** The k-th corrected span is an occurrence that starts at or after the
      point the search resumed from, with no occurrence in between. */
  ghost predicate FixedHit(content: string, v: string, sp: seq<(int, int)>, offset: int, k: nat)
    requires k < |sp|
  {
    && ResumeAt(sp, offset, k) <= sp[k].0
    && sp[k].1 == sp[k].0 + |v|
    && Occurs(content, v, sp[k].0)
    && (forall i :: ResumeAt(sp, offset, k) <= i < sp[k].0 ==> !Occurs(content, v, i))
  }

  /** The corrected search is the complete leftmost scan: every span is the
      first occurrence after the previous one, and once it stops no
      occurrence is left past the last span. */
  lemma {:induction false} FixedSpansGreedy(content: string, v: string, offset: nat)
    requires |v| > 0 && offset <= |content|
    ensures var sp := FixedSpans(content, v, offset);
      && (forall k :: 0 <= k < |sp| ==> FixedHit(content, v, sp, offset, k))
      && (forall i :: ResumeAt(sp, offset, |sp|) <= i ==> !Occurs(content, v, i))
    decreases |content| - offset
  {
    var sp := FixedSpans(content, v, offset);
    var idx := Find(content[offset..], v);
    if idx < 0 {
      FindIsLeftmost(content[offset..], v);
      forall i | offset <= i
        ensures !Occurs(content, v, i)
      {
        OccursInSuffix(content, v, offset, i - offset);
      }
    } else {
      var s := offset + idx;
      var e := s + |v|;
      FixedSpansStep(content, v, offset, s, e);
      FixedFirstHit(content, v, offset, s);
      FixedSpansGreedy(content, v, e);
      var rest := FixedSpans(content, v, e);
      assert sp == [(s, e)] + rest;
      assert ResumeAt(sp, offset, |sp|) == ResumeAt(rest, e, |rest|);
      forall k | 0 < k < |sp|
        ensures FixedHit(content, v, sp, offset, k)
      {
        assert FixedHit(content, v, rest, e, k - 1);
        assert sp[k] == rest[k - 1];
        assert ResumeAt(sp, offset, k) == ResumeAt(rest, e, k - 1);
      }
    }
  }

  /** The hit find reports from `offset` is an occurrence with none before it. */
  lemma {:induction false} FixedFirstHit(content: string, v: string, offset: nat, s: int)
    requires offset <= |content|
    requires Find(content[offset..], v) >= 0 && s == offset + Find(content[offset..], v)
    ensures Occurs(content, v, s)
    ensures forall i :: offset <= i < s ==> !Occurs(content, v, i)
  {
    var idx := Find(content[offset..], v);
    FindIsLeftmost(content[offset..], v);
    OccursInSuffix(content, v, offset, idx);
    forall i | offset <= i < s
      ensures !Occurs(content, v, i)
    {
      OccursInSuffix(content, v, offset, i - offset);
    }
  }

  /** Unlike the search as written, the corrected one finds a value that
      begins the text, as its first result. */
  lemma {:induction false} FixedFindsMatchAtStart(content: string, v: string)
    requires |v| > 0 && Occurs(content, v, 0)
    ensures FixedSpans(content, v, 0) != [] && FixedSpans(content, v, 0)[0] == (0, |v|)
  {
    FixedSpansGreedy(content, v, 0);
    var sp := FixedSpans(content, v, 0);
    if sp == [] {
      assert false;
    }
    assert FixedHit(content, v, sp, 0, 0);
  }

  /** The corrected search finds both matches in "xaa". */
  lemma {:induction false} FixedFindsAdjacentMatch()
    ensures FixedSpans("xaa", "a", 0) == [(1, 2), (2, 3)]
  {
    var c: string := "xaa";
    assert c[0..] == c && c[1..] == "aa" && c[2..] == "a" && c[3..] == [];
    assert Find([], "a") == -1;
    assert Find("a", "a") == 0;
    assert "aa"[..1] == "a";
    assert Find("aa", "a") == 0;
    assert c[..1] == "x" && c[..1] != "a";
    assert Find(c, "a") == 1;
  }

  /** One step of the corrected search: any hit is the next span. */
  lemma {:induction false} FixedSpansStep(content: string, v: string, offset: nat, s: int, e: int)
    requires |v| > 0 && offset <= |content|
    requires Find(content[offset..], v) >= 0
    requires s == offset + Find(content[offset..], v) && e == s + |v|
    ensures offset < e <= |content|
    ensures FixedSpans(content, v, offset) == [(s, e)] + FixedSpans(content, v, e)
  {
    var idx := Find(content[offset..], v);
    assert Occurs(content[offset..], v, idx);
  }

  /** `search_exact` with the loop test corrected to `idx >= 0`. */
  method SearchExactFixed(st: Searchable, value: string, caseSensitive: bool) returns (r: Result<seq<seq<int>>>)
    ensures value == [] ==> r == Ok([])
    ensures value != [] ==>
      r == MatchAll(st.indexed, FixedSpans(Folded(st.content, caseSensitive), Folded(value, caseSensitive), 0))
  {
    if value == [] {
      return Ok([]);
    }
    var content := Folded(st.content, caseSensitive);
    var v := Folded(value, caseSensitive);
    ghost var all := MatchAll(st.indexed, FixedSpans(content, v, 0));
    var found: seq<seq<int>> := [];
    var offset: nat := 0;
    PrependNothing(all);
    while true
      invariant offset <= |content|
      invariant all == Prepend(found, MatchAll(st.indexed, FixedSpans(content, v, offset)))
      decreases |content| - offset
    {
      var idx := Find(content[offset..], v);
      if idx < 0 {
        PrependDone(st.indexed, found);
        return Ok(found);
      }
      var matchStart := offset + idx;
      var matchEnd := matchStart + |v|;
      FixedSpansStep(content, v, offset, matchStart, matchEnd);
      PrependStep(st.indexed, found, (matchStart, matchEnd), FixedSpans(content, v, matchEnd));
      var lines :- MatchToLineIndexes(st.indexed, matchStart, matchEnd);
      found := found + [lines];
      offset := matchEnd;
    }
  }

  /** The corrected search never fails on a tiled index: it yields one
      result per occurrence in the leftmost scan, each listing the lines
      that overlap it. */
  lemma {:induction false} SearchExactFixedSucceeds(st: Searchable, value: string, caseSensitive: bool)
    requires Tiles(st.indexed, |st.content|) && value != []
    ensures var c := Folded(st.content, caseSensitive);
      var v := Folded(value, caseSensitive);
      var sp := FixedSpans(c, v, 0);
      var r := MatchAll(st.indexed, sp);
      && r.Ok? && |r.value| == |sp|
      && forall k :: 0 <= k < |sp| ==>
           Occurs(c, v, sp[k].0) && r.value[k] == OverlapLines(st.indexed, sp[k].0, sp[k].1)
  {
    var c := Folded(st.content, caseSensitive);
    var v := Folded(value, caseSensitive);
    var sp := FixedSpans(c, v, 0);
    FixedSpansGreedy(c, v, 0);
    forall k | 0 <= k < |sp|
      ensures 0 <= sp[k].0 < sp[k].1 <= |st.content| && Occurs(c, v, sp[k].0)
    {
      assert FixedHit(c, v, sp, 0, k);
    }
    MatchAllIsOverlap(st.indexed, |st.content|, sp);
  }

  // ---------------------------------------------------------------------
  // Regular-expression search with an abstract matcher
  // ---------------------------------------------------------------------

  /** `re.search(pattern, text, flags)`: the span of the first match, relative to text. */
  type Matcher = (string, string, bool) -> Option<(int, int)>

  /** What re.search guarantees about the span it reports. */
  ghost predicate MatcherSpans(re: Matcher) {
    forall p, t, ic :: re(p, t, ic).Some? ==> 0 <= re(p, t, ic).value.0 <= re(p, t, ic).value.1 <= |t|
  }

  /** The match spans search_regex visits from `offset` on; the loop stops
      at the first miss or at a match that ends where the search resumed. */
  function RegexSpans(re: Matcher, pattern: string, content: string, ignoreCase: bool, offset: nat): seq<(int, int)>
    requires MatcherSpans(re) && offset <= |content|
    decreases |content| - offset
  {
    match re(pattern, content[offset..], ignoreCase)
    case None => []
    case Some(m) =>
      var s := offset + m.0;
      var e := offset + m.1;
      if offset == e then [] else [(s, e)] + RegexSpans(re, pattern, content, ignoreCase, e)
  }

  /** The k-th regex span is a non-empty match inside the content that
      starts no earlier than the point the search resumed from. */
  predicate RegexHit(content: string, sp: seq<(int, int)>, offset: int, k: nat)
    requires k < |sp|
  {
    && offset <= sp[k].0
    && ResumeAt(sp, offset, k) <= sp[k].0 <= sp[k].1 <= |content|
    && ResumeAt(sp, offset, k) < sp[k].1
  }

  lemma {:induction false} RegexSpansShape(re: Matcher, pattern: string, content: string, ignoreCase: bool, offset: nat)
    requires MatcherSpans(re) && offset <= |content|
    ensures forall k :: 0 <= k < |RegexSpans(re, pattern, content, ignoreCase, offset)| ==>
              RegexHit(content, RegexSpans(re, pattern, content, ignoreCase, offset), offset, k)
    decreases |content| - offset
  {
    var sp := RegexSpans(re, pattern, content, ignoreCase, offset);
    match re(pattern, content[offset..], ignoreCase)
    case None =>
    case Some(m) =>
      var e := offset + m.1;
      if offset != e {
        RegexSpansShape(re, pattern, content, ignoreCase, e);
        var rest := RegexSpans(re, pattern, content, ignoreCase, e);
        assert sp == [(offset + m.0, e)] + rest;
        forall k | 0 <= k < |sp|
          ensures RegexHit(content, sp, offset, k)
        {
          if k > 0 {
            assert RegexHit(content, rest, e, k - 1);
            assert sp[k] == rest[k - 1];
            assert ResumeAt(sp, offset, k) == ResumeAt(rest, e, k - 1);
          }
        }
      }
  }

  /** One step of the regex search: a match ending past the offset is the next span. */
  lemma {:induction false} RegexSpansStep(re: Matcher, pattern: string, content: string, ignoreCase: bool, offset: nat, s: int, e: int)
    requires MatcherSpans(re) && offset <= |content|
    requires re(pattern, content[offset..], ignoreCase).Some?
    requires s == offset + re(pattern, content[offset..], ignoreCase).value.0
    requires e == offset + re(pattern, content[offset..], ignoreCase).value.1
    requires offset != e
    ensures offset < e <= |content|
    ensures RegexSpans(re, pattern, content, ignoreCase, offset) == [(s, e)] + RegexSpans(re, pattern, content, ignoreCase, e)
  {
  }

  /** `search_regex`: an empty pattern yields nothing. */
  method SearchRegex(st: Searchable, re: Matcher, pattern: string, caseSensitive: bool) returns (r: Result<seq<seq<int>>>)
    requires MatcherSpans(re)
    ensures pattern == [] ==> r == Ok([])
    ensures pattern != [] ==> r == MatchAll(st.indexed, RegexSpans(re, pattern, st.content, !caseSensitive, 0))
  {
    if pattern == [] {
      return Ok([]);
    }
    var ignoreCase := !caseSensitive;
    ghost var all := MatchAll(st.indexed, RegexSpans(re, pattern, st.content, ignoreCase, 0));
    var found: seq<seq<int>> := [];
    var offset: nat := 0;
    PrependNothing(all);
    while true
      invariant offset <= |st.content|
      invariant all == Prepend(found, MatchAll(st.indexed, RegexSpans(re, pattern, st.content, ignoreCase, offset)))
      decreases |st.content| - offset
    {
      var m := re(pattern, st.content[offset..], ignoreCase);
      if m.None? {
        PrependDone(st.indexed, found);
        return Ok(found);
      }
      var matchStart := offset + m.value.0;
      var matchEnd := offset + m.value.1;
      if offset == matchEnd {
        PrependDone(st.indexed, found);
        return Ok(found);
      }
      RegexSpansStep(re, pattern, st.content, ignoreCase, offset, matchStart, matchEnd);
      PrependStep(st.indexed, found, (matchStart, matchEnd), RegexSpans(re, pattern, st.content, ignoreCase, matchEnd));
      var lines :- MatchToLineIndexes(st.indexed, matchStart, matchEnd);
      found := found + [lines];
      offset := matchEnd;
    }
  }

  /** Regex matches on a tiled index never fail, and every non-empty match
      maps to its overlapping lines (an empty match past the resume point is
      still yielded, as the line holding its position). */
  lemma {:induction false} SearchRegexSucceeds(st: Searchable, re: Matcher, pattern: string, ignoreCase: bool)
    requires Tiles(st.indexed, |st.content|) && MatcherSpans(re)
    ensures var sp := RegexSpans(re, pattern, st.content, ignoreCase, 0);
      var r := MatchAll(st.indexed, sp);
      && r.Ok? && |r.value| == |sp|
      && forall k :: 0 <= k < |sp| && sp[k].0 < sp[k].1 ==>
           r.value[k] == OverlapLines(st.indexed, sp[k].0, sp[k].1)
  {
    var sp := RegexSpans(re, pattern, st.content, ignoreCase, 0);
    RegexSpansShape(re, pattern, st.content, ignoreCase, 0);
    forall k | 0 <= k < |sp|
      ensures 0 <= sp[k].0 <= sp[k].1 <= |st.content| && 0 < sp[k].1
    {
      assert RegexHit(st.content, sp, 0, k);
      if k > 0 {
        assert RegexHit(st.content, sp, 0, k - 1);
      }
    }
    MatchAllIsOverlap(st.indexed, |st.content|, sp);
  }

  /** `search`: dispatches on the regex flag. */
  method Search(st: Searchable, re: Matcher, value: string, regex: bool, caseSensitive: bool)
    returns (r: Result<seq<seq<int>>>)
    requires MatcherSpans(re)
    ensures value == [] ==> r == Ok([])
    ensures value != [] && regex ==>
      r == MatchAll(st.indexed, RegexSpans(re, value, st.content, !caseSensitive, 0))
    ensures value != [] && !regex ==>
      r == MatchAll(st.indexed, ExactSpans(Folded(st.content, caseSensitive), Folded(value, caseSensitive), 0))
  {
    if regex {
      r := SearchRegex(st, re, value, caseSensitive);
    } else {
      r := SearchExact(st, value, caseSensitive);
    }
  }

  // ---------------------------------------------------------------------
  // Widening a line index by a time delta
  // ---------------------------------------------------------------------

  /** Python list indexing: negative indexes count from the end; anything
      outside [-len, len) raises IndexError. */
  function PyGet(segments: seq<Segment>, i: int): (r: Result<Segment>)
    ensures r.Ok? <==> -|segments| <= i < |segments|
    ensures r.Err? ==> r.error == IndexError
    ensures 0 <= i < |segments| ==> r == Ok(segments[i])
  {
    if 0 <= i < |segments| then Ok(segments[i])
    else if -|segments| <= i < 0 then Ok(segments[|segments| + i])
    else Err(IndexError)
  }

  /** `index_to_past_index`: walks back while the previous segment starts no
      earlier than anchor.start - deltaT, and returns where it stopped. */
  method IndexToPastIndex(segments: seq<Segment>, index: int, deltaT: real) returns (r: Result<int>)
    ensures deltaT < 0.0 ==> r.Err? && r.error.ValueError?
    ensures deltaT >= 0.0 && !(-|segments| <= index < |segments|) ==> r == Err(IndexError)
    ensures deltaT >= 0.0 && -|segments| <= index < 0 ==> r == Ok(index)
    ensures deltaT >= 0.0 && 0 <= index < |segments| ==>
      var minStart := segments[index].start - deltaT;
      && r.Ok? && 0 <= r.value <= index
      && (forall k :: r.value <= k < index ==> segments[k].start >= minStart)
      && (r.value == 0 || segments[r.value - 1].start < minStart)
  {
    if deltaT < 0.0 {
      return Err(ValueError("delta_t"));
    }
    var anchor :- PyGet(segments, index);
    var minStart := anchor.start - deltaT;
    var i := index;
    while i > 0
      invariant i <= index
      invariant index <= 0 ==> i == index
      invariant 0 <= index ==> 0 <= i && forall k :: i <= k < index ==> segments[k].start >= minStart
      decreases i
    {
      if segments[i - 1].start >= minStart {
        i := i - 1;
      } else {
        break;
      }
    }
    return Ok(i);
  }

  /** `index_to_future_index` as written: the loop guard `index < len` lets
      it read the element after the last one, so whenever every later
      segment lies within the delta (in particular at the last segment) it
      raises IndexError instead of returning. */
  method IndexToFutureIndex(segments: seq<Segment>, index: int, deltaT: real) returns (r: Result<int>)
    ensures deltaT < 0.0 ==> r.Err? && r.error.ValueError?
    ensures deltaT >= 0.0 && !(-|segments| <= index < |segments|) ==> r == Err(IndexError)
    ensures deltaT >= 0.0 && 0 <= index < |segments| ==>
      var maxStart := segments[index].start + deltaT;
      && (r.Err? <==> forall k :: index < k < |segments| ==> segments[k].start <= maxStart)
      && (r.Err? ==> r.error == IndexError)
      && (r.Ok? ==>
            && index <= r.value < |segments| - 1
            && (forall k :: index < k <= r.value ==> segments[k].start <= maxStart)
            && maxStart < segments[r.value + 1].start)
    ensures deltaT >= 0.0 && index == |segments| - 1 ==> r == Err(IndexError)
  {
    if deltaT < 0.0 {
      return Err(ValueError("delta_t"));
    }
    var anchor :- PyGet(segments, index);
    var maxStart := anchor.start + deltaT;
    var i := index;
    while i < |segments|
      invariant index <= i < |segments|
      invariant 0 <= index ==> forall k :: index < k <= i ==> segments[k].start <= maxStart
      decreases |segments| - i
    {
      var next :- PyGet(segments, i + 1);
      if next.start <= maxStart {
        i := i + 1;
      } else {
        return Ok(i);
      }
    }
    return Ok(i);
  }

  /** The forward walk with the guard `index < len - 1`: it always returns,
      and the result is the last segment of the run that starts within the delta. */
  method IndexToFutureIndexGuarded(segments: seq<Segment>, index: int, deltaT: real) returns (r: Result<int>)
    ensures deltaT < 0.0 ==> r.Err? && r.error.ValueError?
    ensures deltaT >= 0.0 && !(-|segments| <= index < |segments|) ==> r == Err(IndexError)
    ensures deltaT >= 0.0 && 0 <= index < |segments| ==>
      var maxStart := segments[index].start + deltaT;
      && r.Ok? && index <= r.value < |segments|
      && (forall k :: index < k <= r.value ==> segments[k].start <= maxStart)
      && (r.value == |segments| - 1 || maxStart < segments[r.value + 1].start)
  {
    if deltaT < 0.0 {
      return Err(ValueError("delta_t"));
    }
    var anchor :- PyGet(segments, index);
    var maxStart := anchor.start + deltaT;
    var i := index;
    while i < |segments| - 1
      invariant index <= i < |segments|
      invariant 0 <= index ==> forall k :: index < k <= i ==> segments[k].start <= maxStart
      decreases |segments| - i
    {
      var next :- PyGet(segments, i + 1);
      if next.start <= maxStart {
        i := i + 1;
      } else {
        break;
      }
    }
    return Ok(i);
  }
}
