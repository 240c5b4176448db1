/** De-duplication of automatic YouTube subtitles (`parse_srt_file`).
    Each subtitle's text is cleaned and split into lines; a line that
    continues the oldest pending line (same text, timing contiguous) only
    extends that line's end, every other line becomes a new pending line,
    and pending lines are yielded in first-seen order. The parsed subtitles
    are taken as a sequence; reading the file and `srt.parse` are not part
    of this model. Times are `real` seconds. */
module SubParser {
  import Text

  /** The fields of an `srt.Subtitle` the parser reads. */
  datatype Subtitle = Subtitle(start: real, end: real, content: string)

  /** A SubLine: one de-duplicated line of text with its time span. */
  datatype SubLine = SubLine(start: real, end: real, content: string)

  // ---------------------------------------------------------------------
  // Cleaning a subtitle's text
  // ---------------------------------------------------------------------

  /** The characters `str.splitlines` breaks at. */
  predicate IsLineBreak(c: char) {
    c == '\n' || c == '\r' || c == '\U{000B}' || c == '\U{000C}' || c == '\U{001C}' || c == '\U{001D}'
    || c == '\U{001E}' || c == '\U{0085}' || c == '\U{2028}' || c == '\U{2029}'
  }

  /** The characters `str.split()` treats as whitespace (`str.isspace`). */
  predicate IsSpace(c: char) {
    c == ' ' || c == '\t' || IsLineBreak(c) || c == '\U{001F}' || c == '\U{00A0}' || c == '\U{1680}'
    || ('\U{2000}' <= c <= '\U{200A}') || c == '\U{202F}' || c == '\U{205F}' || c == '\U{3000}'
  }

  /** The pieces of s between line-break characters. `str.splitlines` also
      treats "\r\n" as one break and drops a trailing empty piece; both
      differences only add empty lines, which the parser discards. */
  function SplitLines(s: string): (r: seq<string>)
    ensures |r| >= 1
    decreases |s|
  {
    if s == [] then [[]]
    else
      var rest := SplitLines(s[1..]);
      if IsLineBreak(s[0]) then [[]] + rest else [[s[0]] + rest[0]] + rest[1..]
  }

  /** s without its line-break characters. */
  function DropBreaks(s: string): string
    decreases |s|
  {
    if s == [] then [] else (if IsLineBreak(s[0]) then [] else [s[0]]) + DropBreaks(s[1..])
  }

  function Concat(ss: seq<string>): string
    decreases |ss|
  {
    if ss == [] then [] else ss[0] + Concat(ss[1..])
  }

  /** The pieces hold no line break, and together they are s minus its breaks. */
  lemma {:induction false} SplitLinesSpec(s: string)
    ensures forall k, i :: 0 <= k < |SplitLines(s)| && 0 <= i < |SplitLines(s)[k]| ==> !IsLineBreak(SplitLines(s)[k][i])
    ensures Concat(SplitLines(s)) == DropBreaks(s)
    decreases |s|
  {
    if s != [] {
      SplitLinesSpec(s[1..]);
      var rest := SplitLines(s[1..]);
      if IsLineBreak(s[0]) {
        assert SplitLines(s) == [[]] + rest;
        assert ([[]] + rest)[1..] == rest;
      } else {
        var r := SplitLines(s);
        assert r == [[s[0]] + rest[0]] + rest[1..];
        assert r[1..] == rest[1..];
        assert rest == [rest[0]] + rest[1..];
        assert Concat(rest) == rest[0] + Concat(rest[1..]);
        forall k, i | 0 <= k < |r| && 0 <= i < |r[k]|
          ensures !IsLineBreak(r[k][i])
        {
          if k == 0 && i > 0 {
            assert r[0][i] == rest[0][i - 1];
          } else if k > 0 {
            assert r[k] == rest[k];
          }
        }
      }
    }
  }

  /** The YouTube hard-space marker `[\h__\h]` the parser deletes. */
  const Marker: string := "[\\h__\\h]"

  /** `line.replace(Marker, "")`: occurrences are removed left to right, and
      text that only forms the marker after a removal stays. */
  function RemoveMarker(s: string): (r: string)
    ensures |r| <= |s|
    ensures r == Text.Replace(s, Marker, "")
    decreases |s|
  {
    if |Marker| <= |s| && s[..|Marker|] == Marker then RemoveMarker(s[|Marker|..])
    else if s == [] then []
    else [s[0]] + RemoveMarker(s[1..])
  }

  /** The length of the run of non-whitespace characters s starts with. */
  function WordLen(s: string): (n: nat)
    ensures n <= |s|
    ensures forall i :: 0 <= i < n ==> !IsSpace(s[i])
    ensures n == |s| || IsSpace(s[n])
    decreases |s|
  {
    if s == [] || IsSpace(s[0]) then 0 else 1 + WordLen(s[1..])
  }

  /** `" ".join(s.split())`: the words of s separated by single spaces. */
  function Collapse(s: string): string
    decreases |s|
  {
    if s == [] then []
    else if IsSpace(s[0]) then Collapse(s[1..])
    else
      var n := WordLen(s);
      var rest := Collapse(s[n..]);
      if rest == [] then s[..n] else s[..n] + " " + rest
  }

  /** `s.split()` read one character at a time: a non-whitespace character
      extends the current word when the next one is not whitespace too. */
  function Words(s: string): (r: seq<string>)
    ensures s != [] && !IsSpace(s[0]) ==> r != []
    ensures forall k :: 0 <= k < |r| ==> r[k] != []
    decreases |s|
  {
    if s == [] then []
    else if IsSpace(s[0]) then Words(s[1..])
    else
      var rest := Words(s[1..]);
      if |s| > 1 && !IsSpace(s[1]) then [[s[0]] + rest[0]] + rest[1..] else [[s[0]]] + rest
  }

  /** s without its whitespace characters. */
  function DropSpaces(s: string): string
    decreases |s|
  {
    if s == [] then [] else (if IsSpace(s[0]) then [] else [s[0]]) + DropSpaces(s[1..])
  }

  /** The words hold no whitespace. */
  lemma {:induction false} WordsHaveNoSpace(s: string)
    ensures forall k, i :: 0 <= k < |Words(s)| && 0 <= i < |Words(s)[k]| ==> !IsSpace(Words(s)[k][i])
    decreases |s|
  {
    if s != [] {
      WordsHaveNoSpace(s[1..]);
      if !IsSpace(s[0]) {
        var rest := Words(s[1..]);
        var r := Words(s);
        if |s| > 1 && !IsSpace(s[1]) {
          assert r == [[s[0]] + rest[0]] + rest[1..];
          forall k, i | 0 <= k < |r| && 0 <= i < |r[k]|
            ensures !IsSpace(r[k][i])
          {
            if k == 0 && i > 0 {
              assert r[0][i] == rest[0][i - 1];
            } else if k > 0 {
              assert r[k] == rest[k];
            }
          }
        } else {
          assert r == [[s[0]]] + rest;
          forall k, i | 0 <= k < |r| && 0 <= i < |r[k]|
            ensures !IsSpace(r[k][i])
          {
            if k > 0 {
              assert r[k] == rest[k - 1];
            }
          }
        }
      }
    }
  }

  /** In order, the words are exactly the non-whitespace characters of s. */
  lemma {:induction false} WordsKeepText(s: string)
    ensures Concat(Words(s)) == DropSpaces(s)
    decreases |s|
  {
    if s != [] {
      WordsKeepText(s[1..]);
      if !IsSpace(s[0]) {
        var rest := Words(s[1..]);
        var r := Words(s);
        assert DropSpaces(s) == [s[0]] + DropSpaces(s[1..]);
        if |s| > 1 && !IsSpace(s[1]) {
          var w := [s[0]] + rest[0];
          assert r == [w] + rest[1..];
          assert Concat(r) == w + Concat(rest[1..]);
          assert Concat(rest) == rest[0] + Concat(rest[1..]);
        } else {
          assert r == [[s[0]]] + rest;
          assert Concat(r) == [s[0]] + Concat(rest);
        }
      }
    }
  }

  /** A word starting s is its first `WordLen(s)` characters. */
  lemma {:induction false} WordsAtWord(s: string)
    requires s != [] && !IsSpace(s[0])
    ensures Words(s) == [s[..WordLen(s)]] + Words(s[WordLen(s)..])
    decreases |s|
  {
    var t := s[1..];
    if |s| > 1 && !IsSpace(s[1]) {
      WordsAtWord(t);
      var n := WordLen(t);
      assert WordLen(s) == n + 1;
      assert s[..n + 1] == [s[0]] + t[..n];
      assert s[n + 1..] == t[n..];
    } else {
      assert WordLen(t) == 0;
      assert s[..1] == [s[0]];
    }
  }

  /** Joining non-empty words gives nothing only when there are none. */
  lemma {:induction false} JoinEmpty(ws: seq<string>)
    requires forall k :: 0 <= k < |ws| ==> ws[k] != []
    ensures Text.Join(ws, " ") == [] <==> ws == []
  {
    if |ws| >= 2 {
      assert Text.Join(ws, " ") == ws[0] + " " + Text.Join(ws[1..], " ");
    }
  }

  /** Collapsing is `" ".join(s.split())`: the words of s, in order,
      separated by single spaces. */
  lemma {:induction false} CollapseIsJoin(s: string)
    ensures Collapse(s) == Text.Join(Words(s), " ")
    ensures Collapse(s) == [] <==> Words(s) == []
    decreases |s|
  {
    if s != [] {
      if IsSpace(s[0]) {
        CollapseIsJoin(s[1..]);
      } else {
        var n := WordLen(s);
        CollapseIsJoin(s[n..]);
        WordsAtWord(s);
        var ws := Words(s[n..]);
        assert Words(s) == [s[..n]] + ws;
        JoinEmpty(ws);
        if ws != [] {
          assert ([s[..n]] + ws)[1..] == ws;
        }
      }
    }
  }

  /** Text as the cleaning leaves it: non-empty, its only whitespace single
      spaces between words. */
  predicate CleanText(t: string) {
    && t != []
    && t[0] != ' ' && t[|t| - 1] != ' '
    && (forall i :: 0 <= i < |t| ==> t[i] == ' ' || !IsSpace(t[i]))
    && (forall i :: 0 < i < |t| ==> !(t[i - 1] == ' ' && t[i] == ' '))
  }

  /** Collapsing yields clean text, and nothing exactly when s is all whitespace. */
  lemma {:induction false} CollapseSpec(s: string)
    ensures Collapse(s) == [] <==> forall i :: 0 <= i < |s| ==> IsSpace(s[i])
    ensures Collapse(s) != [] ==> CleanText(Collapse(s))
  {
    CollapseEmpty(s);
    CollapseClean(s);
  }

  lemma {:induction false} CollapseEmpty(s: string)
    ensures Collapse(s) == [] <==> forall i :: 0 <= i < |s| ==> IsSpace(s[i])
    decreases |s|
  {
    if s != [] {
      if IsSpace(s[0]) {
        CollapseEmpty(s[1..]);
        assert forall i :: 0 < i < |s| ==> s[i] == s[1..][i - 1];
      } else {
        assert s[..WordLen(s)][0] == s[0];
      }
    }
  }

  lemma {:induction false} CollapseClean(s: string)
    ensures Collapse(s) != [] ==> CleanText(Collapse(s))
    decreases |s|
  {
    if s != [] {
      if IsSpace(s[0]) {
        CollapseClean(s[1..]);
      } else {
        var n := WordLen(s);
        CollapseClean(s[n..]);
        var rest := Collapse(s[n..]);
        var w := s[..n];
        assert w[0] == s[0];
        if rest != [] {
          var t := w + " " + rest;
          assert t == Collapse(s);
          forall i | 0 <= i < |t|
            ensures t[i] == ' ' || !IsSpace(t[i])
          {
            if i > n { assert t[i] == rest[i - n - 1]; }
          }
          forall i | 0 < i < |t|
            ensures !(t[i - 1] == ' ' && t[i] == ' ')
          {
            if i > n + 1 { assert t[i - 1] == rest[i - n - 2] && t[i] == rest[i - n - 1]; }
          }
        }
      }
    }
  }

  /** The cleaned form of one raw line. */
  function CleanLine(line: string): string {
    Collapse(RemoveMarker(line))
  }

  /** The cleaned, non-empty lines of the pieces, in order. */
  function KeptLines(pieces: seq<string>): (r: seq<string>)
    ensures |r| <= |pieces|
    decreases |pieces|
  {
    if pieces == [] then []
    else
      var n := |pieces| - 1;
      KeptLines(pieces[..n]) + (if CleanLine(pieces[n]) == [] then [] else [CleanLine(pieces[n])])
  }

  /** The lines a subtitle contributes. */
  function RawLines(content: string): seq<string> {
    KeptLines(SplitLines(content))
  }

  /** Every kept line is clean text. */
  lemma {:induction false} KeptLinesClean(pieces: seq<string>)
    ensures forall k :: 0 <= k < |KeptLines(pieces)| ==> CleanText(KeptLines(pieces)[k])
    decreases |pieces|
  {
    if pieces != [] {
      var n := |pieces| - 1;
      KeptLinesClean(pieces[..n]);
      CollapseSpec(RemoveMarker(pieces[n]));
    }
  }

  /** A piece's line: its marker-free words joined by single spaces, or
      nothing when it has none. */
  function WordLine(piece: string): seq<string> {
    var ws := Words(Text.Replace(piece, Marker, ""));
    if ws == [] then [] else [Text.Join(ws, " ")]
  }

  /** The lines of the pieces that hold a word, read from the front. */
  function WordLines(pieces: seq<string>): seq<string>
    decreases |pieces|
  {
    if pieces == [] then [] else WordLine(pieces[0]) + WordLines(pieces[1..])
  }

  lemma {:induction false} WordLinesSnoc(pieces: seq<string>, x: string)
    ensures WordLines(pieces + [x]) == WordLines(pieces) + WordLine(x)
    decreases |pieces|
  {
    if pieces == [] {
      assert [x][1..] == [];
    } else {
      assert (pieces + [x])[1..] == pieces[1..] + [x];
      WordLinesSnoc(pieces[1..], x);
    }
  }

  /** The kept lines are, in order, the marker-free words of each piece that
      has any, joined with single spaces: `" ".join(line.replace(...).split())`
      for every line that is not blank. */
  lemma {:induction false} KeptLinesWords(pieces: seq<string>)
    ensures KeptLines(pieces) == WordLines(pieces)
    decreases |pieces|
  {
    if pieces != [] {
      var n := |pieces| - 1;
      var init, last := pieces[..n], pieces[n];
      SnocLast(pieces);
      assert KeptLines(pieces) == KeptLines(init) + (if CleanLine(last) == [] then [] else [CleanLine(last)]);
      KeptLinesWords(init);
      WordLinesSnoc(init, last);
      WordLineIsCleanLine(last);
    }
  }

  lemma SnocLast<T>(xs: seq<T>)
    requires xs != []
    ensures xs == xs[..|xs| - 1] + [xs[|xs| - 1]]
  {
  }

  /** A piece's word line is its cleaned line, when that is not empty. */
  lemma {:induction false} WordLineIsCleanLine(piece: string)
    ensures WordLine(piece) == (if CleanLine(piece) == [] then [] else [CleanLine(piece)])
  {
    CollapseIsJoin(RemoveMarker(piece));
  }

  /** The cleaning loop over `sub.content.splitlines()`. */
  method CleanSubtitle(content: string) returns (rawLines: seq<string>)
    ensures rawLines == RawLines(content)
    ensures forall k :: 0 <= k < |rawLines| ==> CleanText(rawLines[k])
  {
    var pieces := SplitLines(content);
    rawLines := [];
    for k := 0 to |pieces|
      invariant rawLines == KeptLines(pieces[..k])
    {
      assert pieces[..k + 1][..k] == pieces[..k];
      var rawLine := RemoveMarker(pieces[k]);
      rawLine := Collapse(rawLine);
      if rawLine != [] {
        rawLines := rawLines + [rawLine];
      }
    }
    assert pieces[..|pieces|] == pieces;
    KeptLinesClean(pieces);
  }

  // ---------------------------------------------------------------------
  // The pending-line queue
  // ---------------------------------------------------------------------

  /** Lines yielded so far, lines still pending, and how many raw lines were
      merged into a pending line instead of becoming one. */
  datatype State = State(emitted: seq<SubLine>, pending: seq<SubLine>, merged: nat)

  /** Whether `line` is continued by a raw line with text `text` in a
      subtitle starting at `start`. */
  predicate Continues(line: SubLine, text: string, start: real) {
    line.content == text && line.end == start
  }

  /** The first loop: how many pending lines are popped from the front
      before the head is continued by the first raw line `head`. */
  function FlushCount(pending: seq<SubLine>, head: string, start: real): (c: nat)
    ensures c <= |pending|
    decreases |pending|
  {
    if pending != [] && !Continues(pending[0], head, start) then 1 + FlushCount(pending[1..], head, start) else 0
  }

  /** The second loop: how many raw lines are merged into the head line,
      whose end becomes `end` after the first merge. */
  function AbsorbCount(head: SubLine, raw: seq<string>, start: real, end: real): (n: nat)
    ensures n <= |raw|
    decreases |raw|
  {
    if raw != [] && Continues(head, raw[0], start) then 1 + AbsorbCount(head.(end := end), raw[1..], start, end) else 0
  }

  /** New pending lines for the raw lines left over, carrying the subtitle's times. */
  function NewLines(raw: seq<string>, sub: Subtitle): (r: seq<SubLine>)
    ensures |r| == |raw|
    ensures forall k :: 0 <= k < |raw| ==> r[k] == SubLine(sub.start, sub.end, raw[k])
  {
    seq(|raw|, k requires 0 <= k < |raw| => SubLine(sub.start, sub.end, raw[k]))
  }

  /** The pending lines after merging n raw lines into the head. */
  function Extended(left: seq<SubLine>, n: nat, end: real): seq<SubLine> {
    if n == 0 || left == [] then left else [left[0].(end := end)] + left[1..]
  }

  /** One iteration of the loop over subtitles, given the subtitle's raw lines. */
  function StepLines(st: State, raw: seq<string>, sub: Subtitle): State {
    if raw == [] then st
    else
      var c := FlushCount(st.pending, raw[0], sub.start);
      var left := st.pending[c..];
      var n := if left == [] then 0 else AbsorbCount(left[0], raw, sub.start, sub.end);
      State(st.emitted + st.pending[..c], Extended(left, n, sub.end) + NewLines(raw[n..], sub), st.merged + n)
  }

  /** One iteration of the loop over subtitles. */
  function Step(st: State, sub: Subtitle): State {
    StepLines(st, RawLines(sub.content), sub)
  }

  /** The loop over all subtitles. */
  function Run(st: State, subs: seq<Subtitle>): State
    decreases |subs|
  {
    if subs == [] then st else Run(Step(st, subs[0]), subs[1..])
  }

  /** Everything `parse_srt_file` yields: the popped lines, then those still pending. */
  function Parse(subs: seq<Subtitle>): seq<SubLine> {
    var st := Run(State([], [], 0), subs);
    st.emitted + st.pending
  }

  /** Flushing pops exactly the longest prefix of lines that are not
      continued; the first line left, if any, is continued. */
  lemma {:induction false} FlushSpec(pending: seq<SubLine>, head: string, start: real)
    ensures forall i :: 0 <= i < FlushCount(pending, head, start) ==> !Continues(pending[i], head, start)
    ensures FlushCount(pending, head, start) < |pending| ==> Continues(pending[FlushCount(pending, head, start)], head, start)
    decreases |pending|
  {
    if pending != [] && !Continues(pending[0], head, start) {
      FlushSpec(pending[1..], head, start);
      forall i | 1 <= i < FlushCount(pending, head, start)
        ensures !Continues(pending[i], head, start)
      {
        assert pending[i] == pending[1..][i - 1];
      }
    }
  }

  /** The continuation test merges one raw line into a head whose start and
      end differ: after the merge the head ends at the subtitle's end, which
      is not its start, so the next raw line cannot continue it. */
  lemma {:induction false} AbsorbOnce(head: SubLine, raw: seq<string>, start: real, end: real)
    requires raw != [] && Continues(head, raw[0], start) && start != end
    ensures AbsorbCount(head, raw, start, end) == 1
  {
  }

  /** A subtitle that continues the head line extends it instead of
      repeating it: with distinct start and end, exactly the first raw line
      is merged, nothing is popped, and the rest become new lines. */
  lemma {:induction false} ContinuationExtendsHead(st: State, sub: Subtitle)
    requires RawLines(sub.content) != [] && st.pending != []
    requires Continues(st.pending[0], RawLines(sub.content)[0], sub.start)
    requires sub.start != sub.end
    ensures Step(st, sub) == State(
              st.emitted,
              [st.pending[0].(end := sub.end)] + st.pending[1..] + NewLines(RawLines(sub.content)[1..], sub),
              st.merged + 1)
  {
    var raw := RawLines(sub.content);
    assert FlushCount(st.pending, raw[0], sub.start) == 0;
    assert st.pending[0..] == st.pending;
    AbsorbOnce(st.pending[0], raw, sub.start, sub.end);
  }

  /** A subtitle whose text cleans to nothing changes nothing: it neither
      adds lines nor flushes pending ones. */
  lemma {:induction false} EmptySubtitleIsSkipped(st: State, sub: Subtitle)
    requires RawLines(sub.content) == []
    ensures Step(st, sub) == st
  {
  }

  lemma {:induction false} RunSkip(st: State, a: seq<Subtitle>, sub: Subtitle, b: seq<Subtitle>)
    requires RawLines(sub.content) == []
    ensures Run(st, a + [sub] + b) == Run(st, a + b)
    decreases |a|
  {
    if a == [] {
      assert a + [sub] + b == [sub] + b && ([sub] + b)[1..] == b && a + b == b;
    } else {
      assert (a + [sub] + b)[0] == a[0] && (a + [sub] + b)[1..] == a[1..] + [sub] + b;
      assert (a + b)[0] == a[0] && (a + b)[1..] == a[1..] + b;
      RunSkip(Step(st, a[0]), a[1..], sub, b);
    }
  }

  /** Inserting a subtitle that cleans to nothing anywhere leaves the output unchanged. */
  lemma {:induction false} EmptySubtitleAnywhere(subs: seq<Subtitle>, i: nat, sub: Subtitle)
    requires i <= |subs| && RawLines(sub.content) == []
    ensures Parse(subs[..i] + [sub] + subs[i..]) == Parse(subs)
  {
    var a, b := subs[..i], subs[i..];
    assert a + b == subs;
    RunSkip(State([], [], 0), a, sub, b);
  }

  /** The number of raw lines over all subtitles. */
  function TotalRaw(subs: seq<Subtitle>): nat
    decreases |subs|
  {
    if subs == [] then 0 else |RawLines(subs[0].content)| + TotalRaw(subs[1..])
  }

  /** One step: every raw line either becomes a line or is merged, and the
      emitted lines only grow at the end. */
  lemma {:induction false} StepCount(st: State, sub: Subtitle)
    ensures var st' := Step(st, sub);
      && |st'.emitted| + |st'.pending| + st'.merged
         == |st.emitted| + |st.pending| + st.merged + |RawLines(sub.content)|
      && st.emitted <= st'.emitted
  {
  }

  lemma {:induction false} RunCount(st: State, subs: seq<Subtitle>)
    ensures var st' := Run(st, subs);
      && |st'.emitted| + |st'.pending| + st'.merged == |st.emitted| + |st.pending| + st.merged + TotalRaw(subs)
      && st.emitted <= st'.emitted
    decreases |subs|
  {
    if subs != [] {
      StepCount(st, subs[0]);
      RunCount(Step(st, subs[0]), subs[1..]);
    }
  }

  /** The number of yielded lines is the number of raw lines minus the
      number merged into an earlier line. */
  lemma {:induction false} ParseCount(subs: seq<Subtitle>)
    ensures |Parse(subs)| + Run(State([], [], 0), subs).merged == TotalRaw(subs)
  {
    RunCount(State([], [], 0), subs);
  }

  /** Every line holds clean text. */
  predicate AllClean(lines: seq<SubLine>) {
    forall k :: 0 <= k < |lines| ==> CleanText(lines[k].content)
  }

  lemma {:induction false} StepLinesClean(st: State, raw: seq<string>, sub: Subtitle)
    requires AllClean(st.emitted) && AllClean(st.pending)
    requires forall k :: 0 <= k < |raw| ==> CleanText(raw[k])
    ensures AllClean(StepLines(st, raw, sub).emitted) && AllClean(StepLines(st, raw, sub).pending)
  {
    if raw != [] {
      var c := FlushCount(st.pending, raw[0], sub.start);
      var left := st.pending[c..];
      var n := if left == [] then 0 else AbsorbCount(left[0], raw, sub.start, sub.end);
      var ext := Extended(left, n, sub.end);
      assert AllClean(st.pending[..c]) by {
        assert forall k :: 0 <= k < c ==> st.pending[..c][k] == st.pending[k];
      }
      assert AllClean(ext) by {
        forall k | 0 <= k < |ext|
          ensures CleanText(ext[k].content)
        {
          assert ext[k].content == st.pending[c + k].content;
        }
      }
      var added := NewLines(raw[n..], sub);
      assert AllClean(added) by {
        forall k | 0 <= k < |added|
          ensures CleanText(added[k].content)
        {
          assert added[k].content == raw[n + k];
        }
      }
    }
  }

  lemma {:induction false} RunClean(st: State, subs: seq<Subtitle>)
    requires AllClean(st.emitted) && AllClean(st.pending)
    ensures AllClean(Run(st, subs).emitted) && AllClean(Run(st, subs).pending)
    decreases |subs|
  {
    if subs != [] {
      KeptLinesClean(SplitLines(subs[0].content));
      StepLinesClean(st, RawLines(subs[0].content), subs[0]);
      RunClean(Step(st, subs[0]), subs[1..]);
    }
  }

  /** Every yielded line is non-empty text whose only whitespace is single
      spaces between words. */
  lemma {:induction false} ParseClean(subs: seq<Subtitle>)
    ensures forall k :: 0 <= k < |Parse(subs)| ==> CleanText(Parse(subs)[k].content)
  {
    RunClean(State([], [], 0), subs);
  }

  /** The first loop pops one more line. */
  lemma {:induction false} FlushStep(before: seq<SubLine>, c: nat, head: string, start: real)
    requires c < |before| && !Continues(before[c], head, start)
    ensures FlushCount(before[c..], head, start) == 1 + FlushCount(before[c + 1..], head, start)
  {
    assert before[c..][1..] == before[c + 1..];
  }

  /** The second loop merges one more raw line. */
  lemma {:induction false} AbsorbStep(head: SubLine, raw0: seq<string>, n: nat, start: real, end: real)
    requires n < |raw0| && Continues(head, raw0[n], start)
    ensures AbsorbCount(head, raw0[n..], start, end) == 1 + AbsorbCount(head.(end := end), raw0[n + 1..], start, end)
  {
    assert raw0[n..][1..] == raw0[n + 1..];
  }

  /** The first inner loop: pops pending lines until the head is continued
      by the raw line `head`. */
  method PopUntilContinued(unfinished0: seq<SubLine>, head: string, start: real)
    returns (popped: seq<SubLine>, unfinished: seq<SubLine>)
    ensures popped == unfinished0[..FlushCount(unfinished0, head, start)]
    ensures unfinished == unfinished0[FlushCount(unfinished0, head, start)..]
  {
    popped := [];
    unfinished := unfinished0;
    ghost var c: nat := 0;
    while unfinished != [] && (unfinished[0].content != head || unfinished[0].end != start)
      invariant c <= |unfinished0| && unfinished == unfinished0[c..] && popped == unfinished0[..c]
      invariant FlushCount(unfinished0, head, start) == c + FlushCount(unfinished, head, start)
      decreases |unfinished|
    {
      FlushStep(unfinished0, c, head, start);
      popped := popped + [unfinished[0]];
      unfinished := unfinished[1..];
      assert unfinished0[..c + 1] == unfinished0[..c] + [unfinished0[c]];
      c := c + 1;
    }
  }

  /** The second inner loop: merges raw lines into the head while they
      continue it, moving the head's end to the subtitle's end. */
  method ExtendHead(left: seq<SubLine>, rawLines0: seq<string>, sub: Subtitle)
    returns (unfinished: seq<SubLine>, rawLines: seq<string>, n: nat)
    ensures n == if left == [] then 0 else AbsorbCount(left[0], rawLines0, sub.start, sub.end)
    ensures n <= |rawLines0| && rawLines == rawLines0[n..]
    ensures unfinished == Extended(left, n, sub.end)
  {
    unfinished := left;
    rawLines := rawLines0;
    n := 0;
    while unfinished != [] && rawLines != [] && unfinished[0].content == rawLines[0] && unfinished[0].end == sub.start
      invariant n <= |rawLines0| && rawLines == rawLines0[n..]
      invariant unfinished == Extended(left, n, sub.end)
      invariant left != [] ==> AbsorbCount(left[0], rawLines0, sub.start, sub.end) == n + AbsorbCount(unfinished[0], rawLines, sub.start, sub.end)
      invariant left == [] ==> unfinished == [] && n == 0
      decreases |rawLines|
    {
      AbsorbStep(unfinished[0], rawLines0, n, sub.start, sub.end);
      rawLines := rawLines[1..];
      unfinished := unfinished[0 := unfinished[0].(end := sub.end)];
      n := n + 1;
    }
  }

  /** One pass of the body of the subtitle loop for a subtitle with raw lines. */
  method Merge(unfinished0: seq<SubLine>, rawLines0: seq<string>, sub: Subtitle)
    returns (popped: seq<SubLine>, unfinished: seq<SubLine>, n: nat)
    requires rawLines0 != []
    ensures var st := StepLines(State([], unfinished0, 0), rawLines0, sub);
      popped == st.emitted && unfinished == st.pending && n == st.merged
  {
    var left;
    popped, left := PopUntilContinued(unfinished0, rawLines0[0], sub.start);
    var rawLines;
    unfinished, rawLines, n := ExtendHead(left, rawLines0, sub);
    unfinished := unfinished + NewLines(rawLines, sub);
  }

  /** A step from any state pops and merges as it does from a state with
      nothing emitted. */
  lemma {:induction false} StepLinesShift(yielded: seq<SubLine>, unfinished: seq<SubLine>, merged: nat, raw: seq<string>, sub: Subtitle,
                       popped: seq<SubLine>, unfinished': seq<SubLine>, n: nat)
    requires StepLines(State([], unfinished, 0), raw, sub) == State(popped, unfinished', n)
    ensures StepLines(State(yielded, unfinished, merged), raw, sub) == State(yielded + popped, unfinished', merged + n)
  {
  }

  /** The subtitle loop advances the fold by one subtitle. */
  lemma {:induction false} RunSnoc(st: State, subs: seq<Subtitle>, i: nat)
    requires i < |subs|
    ensures Run(st, subs[..i + 1]) == Step(Run(st, subs[..i]), subs[i])
    decreases i
  {
    if i > 0 {
      assert subs[..i + 1][1..] == subs[1..][..i];
      assert subs[..i][1..] == subs[1..][..i - 1];
      RunSnoc(Step(st, subs[0]), subs[1..], i - 1);
    }
  }

  /** `parse_srt_file` over already-parsed subtitles: the queue `unfinished`
      is popped from the front, and its head's end is updated in place. */
  method ParseSubtitles(subs: seq<Subtitle>) returns (yielded: seq<SubLine>)
    ensures yielded == Parse(subs)
  {
    yielded := [];
    var unfinished: seq<SubLine> := [];
    ghost var merged: nat := 0;
    for i := 0 to |subs|
      invariant State(yielded, unfinished, merged) == Run(State([], [], 0), subs[..i])
    {
      RunSnoc(State([], [], 0), subs, i);
      var sub := subs[i];
      var rawLines := CleanSubtitle(sub.content);
      if rawLines == [] {
        continue;
      }
      var popped, unfinished', n := Merge(unfinished, rawLines, sub);
      StepLinesShift(yielded, unfinished, merged, rawLines, sub, popped, unfinished', n);
      yielded := yielded + popped;
      unfinished := unfinished';
      merged := merged + n;
    }
    assert subs[..|subs|] == subs;
    yielded := yielded + unfinished;
  }
}
