/** Voice-activity chunker: turns (possibly overlapping) diarization segments
    into sorted, disjoint, padded chunks for transcription.
    Times are `real` seconds. */
module VoiceActivity {
  import opened Wrappers

  /** A VoiceActivityChunk; the source's validator rejects start >= end. */
  datatype Chunk = Chunk(start: real, end: real)

  /** The (gap, duration) pair the close-merging step keeps per adjacent pair. */
  datatype Gap = Gap(gap: real, duration: real)

  function Duration(c: Chunk): real { c.end - c.start }

  predicate ValidChunk(c: Chunk) { c.start < c.end }

  /** Time t lies in the closed interval of c. */
  predicate In(c: Chunk, t: real) { c.start <= t <= c.end }

  /** The union of the chunks' closed intervals contains t. */
  ghost predicate Covers(cs: seq<Chunk>, t: real) {
    exists c :: c in cs && In(c, t)
  }

  /** Each chunk starts no earlier than the one before it. */
  predicate SortedByStart(cs: seq<Chunk>) {
    forall i :: 0 < i < |cs| ==> cs[i - 1].start <= cs[i].start
  }

  /** Valid chunks, each starting strictly after the previous one ends. */
  predicate Separated(cs: seq<Chunk>) {
    && (forall i :: 0 <= i < |cs| ==> ValidChunk(cs[i]))
    && (forall i :: 0 < i < |cs| ==> cs[i - 1].end < cs[i].start)
  }

  function Last(cs: seq<Chunk>): Chunk
    requires cs != []
  {
    cs[|cs| - 1]
  }

  // ---------------------------------------------------------------------
  // Construction of chunks from diarization segments
  // ---------------------------------------------------------------------

  /** `VoiceActivityChunk(start=..., end=...)`, whose validator raises ValueError. */
  function NewChunk(start: real, end: real): (r: Result<Chunk>)
    ensures r.Ok? <==> start < end
    ensures r.Ok? ==> ValidChunk(r.value) && r.value.start == start && r.value.end == end
  {
    if start >= end then Err(ValueError("AudioChunk start must be before end")) else Ok(Chunk(start, end))
  }

  /** The list comprehension building one chunk per (start, end) segment;
      the first invalid segment aborts the whole conversion. */
  function ToChunks(segments: seq<(real, real)>): (r: Result<seq<Chunk>>)
    ensures r.Ok? <==> forall i :: 0 <= i < |segments| ==> segments[i].0 < segments[i].1
    ensures r.Ok? ==> |r.value| == |segments|
    ensures r.Ok? ==> forall i :: 0 <= i < |segments| ==> r.value[i] == Chunk(segments[i].0, segments[i].1)
  {
    if segments == [] then Ok([])
    else
      var c :- NewChunk(segments[0].0, segments[0].1);
      var rest :- ToChunks(segments[1..]);
      Ok([c] + rest)
  }

  // ---------------------------------------------------------------------
  // Step 1: sort and merge overlapping chunks
  // ---------------------------------------------------------------------

  /** Inserts c before the first chunk that does not start earlier (keeps the sort stable). */
  function InsertByStart(c: Chunk, s: seq<Chunk>): seq<Chunk> {
    if s == [] || c.start <= s[0].start then [c] + s
    else [s[0]] + InsertByStart(c, s[1..])
  }

  /** Insertion adds exactly c and keeps a sorted list sorted. */
  lemma {:induction false} InsertByStartSpec(c: Chunk, s: seq<Chunk>)
    ensures multiset(InsertByStart(c, s)) == multiset(s) + multiset{c}
    ensures InsertByStart(c, s)[0] == c || (s != [] && InsertByStart(c, s)[0] == s[0])
    ensures SortedByStart(s) ==> SortedByStart(InsertByStart(c, s))
  {
    if s != [] && c.start > s[0].start {
      assert s == [s[0]] + s[1..];
      InsertByStartSpec(c, s[1..]);
    }
  }

  /** `sorted(chunks, key=lambda x: x.start)`, a stable insertion sort. */
  function SortByStart(s: seq<Chunk>): seq<Chunk> {
    if s == [] then [] else InsertByStart(s[0], SortByStart(s[1..]))
  }

  /** The sort returns a permutation of its input, ordered by start. */
  lemma {:induction false} SortByStartSpec(s: seq<Chunk>)
    ensures multiset(SortByStart(s)) == multiset(s)
    ensures SortedByStart(SortByStart(s))
  {
    if s != [] {
      assert s == [s[0]] + s[1..];
      SortByStartSpec(s[1..]);
      InsertByStartSpec(s[0], SortByStart(s[1..]));
    }
  }

  /** One step of the sweep: absorb c into the running chunk when it starts
      within [start, end] of that chunk, otherwise open a new running chunk. */
  function Absorb(acc: seq<Chunk>, c: Chunk): seq<Chunk> {
    if acc == [] then [c]
    else if Last(acc).start <= c.start <= Last(acc).end then
      acc[..|acc| - 1] + [Chunk(Last(acc).start, Max(Last(acc).end, c.end))]
    else acc + [c]
  }

  /** The chunks the sweep of `_merge_overlapping_chunks` has emitted after
      reading the prefix s, the running chunk included as the last one. */
  function Sweep(s: seq<Chunk>): seq<Chunk> {
    if s == [] then [] else Absorb(Sweep(s[..|s| - 1]), s[|s| - 1])
  }

  lemma {:induction false} CoversAppend(cs: seq<Chunk>, c: Chunk, t: real)
    ensures Covers(cs + [c], t) <==> Covers(cs, t) || In(c, t)
  {
    if In(c, t) { assert c in cs + [c]; }
    if Covers(cs, t) {
      var d :| d in cs && In(d, t);
      assert d in cs + [c];
    }
  }

  /** Separated chunks are pairwise disjoint and in time order. */
  lemma {:induction false} SeparatedOrdered(cs: seq<Chunk>, i: nat, j: nat)
    requires Separated(cs) && i < j < |cs|
    ensures cs[i].end < cs[j].start
    decreases j - i
  {
    if i + 1 < j {
      SeparatedOrdered(cs, i, j - 1);
    }
  }

  /** A valid chunk starting after the last end extends separated chunks. */
  lemma {:induction false} SeparatedSnoc(cs: seq<Chunk>, c: Chunk)
    requires Separated(cs) && ValidChunk(c) && (cs != [] ==> Last(cs).end < c.start)
    ensures Separated(cs + [c])
  {
    var r := cs + [c];
    assert forall i :: 0 <= i < |cs| ==> r[i] == cs[i];
  }

  /** Widening the last of separated chunks, keeping its start, keeps them separated. */
  lemma {:induction false} SeparatedWiden(cs: seq<Chunk>, c: Chunk)
    requires Separated(cs) && cs != [] && ValidChunk(c) && c.start == Last(cs).start
    ensures Separated(cs[..|cs| - 1] + [c])
  {
    var r := cs[..|cs| - 1] + [c];
    assert forall i :: 0 <= i < |cs| - 1 ==> r[i] == cs[i];
  }

  /** The sweep over a sorted list of valid chunks yields separated chunks,
      no more than it read, starting at the first start. */
  lemma {:induction false} SweepShape(s: seq<Chunk>)
    requires SortedByStart(s)
    requires forall i :: 0 <= i < |s| ==> ValidChunk(s[i])
    ensures Separated(Sweep(s))
    ensures |Sweep(s)| <= |s|
    ensures s == [] <==> Sweep(s) == []
    ensures s != [] ==> Sweep(s)[0].start == s[0].start && Last(Sweep(s)).start <= Last(s).start
  {
    if s != [] {
      var p := s[..|s| - 1];
      var c := s[|s| - 1];
      SweepShape(p);
      var acc := Sweep(p);
      if acc != [] {
        var l := Last(acc);
        assert l.start <= c.start by {
          assert Last(p) == s[|s| - 2];
        }
        if l.start <= c.start <= l.end {
          var front := acc[..|acc| - 1];
          var merged := Chunk(l.start, Max(l.end, c.end));
          assert Sweep(s) == front + [merged];
          SeparatedWiden(acc, merged);
          assert front != [] ==> Last(front) == acc[|acc| - 2];
        } else {
          assert Sweep(s) == acc + [c];
          SeparatedSnoc(acc, c);
        }
      }
    }
  }

  /** The sweep covers exactly the time its input covers. */
  lemma {:induction false} SweepCovers(s: seq<Chunk>, t: real)
    requires SortedByStart(s)
    requires forall i :: 0 <= i < |s| ==> ValidChunk(s[i])
    ensures Covers(Sweep(s), t) <==> Covers(s, t)
  {
    if s != [] {
      var p := s[..|s| - 1];
      var c := s[|s| - 1];
      assert s == p + [c];
      SweepCovers(p, t);
      SweepShape(p);
      CoversAppend(p, c, t);
      var acc := Sweep(p);
      if acc == [] {
        CoversAppend([], c, t);
      } else {
        var l := Last(acc);
        if l.start <= c.start <= l.end {
          var front := acc[..|acc| - 1];
          var merged := Chunk(l.start, Max(l.end, c.end));
          assert acc == front + [l];
          assert Sweep(s) == front + [merged];
          CoversAppend(front, merged, t);
          CoversAppend(front, l, t);
        } else {
          CoversAppend(acc, c, t);
        }
      }
    }
  }

  lemma {:induction false} SweepSnoc(s: seq<Chunk>, k: nat)
    requires k < |s|
    ensures Sweep(s[..k + 1]) == Absorb(Sweep(s[..k]), s[k])
  {
    assert s[..k + 1][..k] == s[..k];
  }

  /** Absorbing into `done + [running]` only ever touches the running chunk. */
  lemma {:induction false} AbsorbRunning(done: seq<Chunk>, running: Chunk, c: Chunk)
    ensures running.start <= c.start <= running.end ==>
              Absorb(done + [running], c) == done + [Chunk(running.start, Max(running.end, c.end))]
    ensures !(running.start <= c.start <= running.end) ==>
              Absorb(done + [running], c) == (done + [running]) + [c]
  {
    var acc := done + [running];
    assert Last(acc) == running;
    assert acc[..|acc| - 1] == done;
  }

  /** `_merge_overlapping_chunks`: sort, then sweep once keeping a running
      (start, end); touching chunks (start == running end) are merged. */
  method MergeOverlapping(chunks: seq<Chunk>) returns (merged: seq<Chunk>)
    ensures merged == Sweep(SortByStart(chunks))
  {
    var sorted := SortByStart(chunks);
    merged := [];
    var running: Option<Chunk> := None;
    for k := 0 to |sorted|
      invariant running.None? <==> k == 0
      invariant running.None? ==> merged == []
      invariant running.Some? ==> merged + [running.value] == Sweep(sorted[..k])
    {
      var chunk := sorted[k];
      SweepSnoc(sorted, k);
      if running.None? {
        assert sorted[..k] == [];
        running := Some(chunk);
      } else {
        AbsorbRunning(merged, running.value, chunk);
        if running.value.start <= chunk.start <= running.value.end {
          running := Some(Chunk(running.value.start, Max(running.value.end, chunk.end)));
        } else {
          merged := merged + [running.value];
          running := Some(chunk);
        }
      }
    }
    assert sorted[..|sorted|] == sorted;
    if running.Some? {
      merged := merged + [running.value];
    }
  }

  /** The sort keeps exactly the input's chunks, ordered by start. */
  lemma {:induction false} SortKeepsMembers(chunks: seq<Chunk>)
    ensures forall c :: c in SortByStart(chunks) <==> c in chunks
    ensures SortedByStart(SortByStart(chunks))
    ensures |SortByStart(chunks)| == |chunks|
  {
    SortByStartSpec(chunks);
    var s := SortByStart(chunks);
    assert |s| == |multiset(s)| == |multiset(chunks)| == |chunks|;
    forall c ensures c in s <==> c in chunks {
      assert c in s <==> c in multiset(s);
      assert c in chunks <==> c in multiset(chunks);
    }
  }

  /** What `_merge_overlapping_chunks` promises: sorted, strictly separated
      chunks covering exactly the time of the input; empty in, empty out. */
  lemma {:induction false} MergeOverlappingProperties(chunks: seq<Chunk>)
    requires forall i :: 0 <= i < |chunks| ==> ValidChunk(chunks[i])
    ensures Separated(Sweep(SortByStart(chunks)))
    ensures chunks == [] <==> Sweep(SortByStart(chunks)) == []
    ensures forall t :: Covers(Sweep(SortByStart(chunks)), t) <==> Covers(chunks, t)
  {
    var s := SortByStart(chunks);
    SortKeepsMembers(chunks);
    forall i | 0 <= i < |s| ensures ValidChunk(s[i]) {
      assert s[i] in chunks;
    }
    SweepShape(s);
    forall t ensures Covers(Sweep(s), t) <==> Covers(chunks, t) {
      SweepCovers(s, t);
      if Covers(s, t) { var c :| c in s && In(c, t); assert c in chunks; }
      if Covers(chunks, t) { var c :| c in chunks && In(c, t); assert c in s; }
    }
  }

  // ---------------------------------------------------------------------
  // Step 2: greedily merge the adjacent pair with the smallest gap
  // ---------------------------------------------------------------------

  /** `_get_gap(idx)`: the gap between chunk i and i+1 and their combined span. */
  function GapAt(rs: seq<Chunk>, i: nat): Gap
    requires i + 1 < |rs|
  {
    Gap(rs[i + 1].start - rs[i].end, rs[i + 1].end - rs[i].start)
  }

  /** The gap table as first built: one entry per adjacent pair. */
  function GapTable(rs: seq<Chunk>): (g: seq<Gap>)
    requires |rs| >= 1
    ensures |g| == |rs| - 1
    ensures forall i :: 0 <= i < |g| ==> g[i] == GapAt(rs, i)
  {
    seq(|rs| - 1, i requires 0 <= i < |rs| - 1 => GapAt(rs, i))
  }

  predicate Usable(g: Gap, maxDuration: real, maxGap: real) {
    g.gap <= maxGap && g.duration <= maxDuration
  }

  /** `[x for x in gaps if x.gap <= max_gap and x.duration <= max_duration]` */
  function UsableGaps(gaps: seq<Gap>, maxDuration: real, maxGap: real): seq<Gap> {
    if gaps == [] then []
    else if Usable(gaps[0], maxDuration, maxGap) then [gaps[0]] + UsableGaps(gaps[1..], maxDuration, maxGap)
    else UsableGaps(gaps[1..], maxDuration, maxGap)
  }

  /** The filter keeps exactly the usable entries. */
  lemma {:induction false} UsableGapsMembers(gaps: seq<Gap>, maxDuration: real, maxGap: real)
    ensures forall g :: g in UsableGaps(gaps, maxDuration, maxGap) <==> g in gaps && Usable(g, maxDuration, maxGap)
  {
    if gaps != [] {
      UsableGapsMembers(gaps[1..], maxDuration, maxGap);
      assert gaps == [gaps[0]] + gaps[1..];
    }
  }

  /** `min(gs, key=lambda x: x.gap)`: the first element with the least gap. */
  function MinByGap(gs: seq<Gap>): Gap
    requires gs != []
  {
    if |gs| == 1 then gs[0]
    else
      var rest := MinByGap(gs[1..]);
      if rest.gap < gs[0].gap then rest else gs[0]
  }

  /** The minimum is an element and no element has a smaller gap. */
  lemma {:induction false} MinByGapIsLeast(gs: seq<Gap>)
    requires gs != []
    ensures MinByGap(gs) in gs
    ensures forall g :: g in gs ==> MinByGap(gs).gap <= g.gap
  {
    if |gs| > 1 {
      MinByGapIsLeast(gs[1..]);
      assert gs == [gs[0]] + gs[1..];
    }
  }

  /** `gaps.index(g)`: the first position holding g (|gaps| when absent, where
      Python raises; the merge loop only looks up entries it took from gaps). */
  function IndexOf(gaps: seq<Gap>, g: Gap): nat {
    if gaps == [] then 0 else if gaps[0] == g then 0 else 1 + IndexOf(gaps[1..], g)
  }

  /** IndexOf finds the first occurrence of a present entry. */
  lemma {:induction false} IndexOfFirst(gaps: seq<Gap>, g: Gap)
    requires g in gaps
    ensures IndexOf(gaps, g) < |gaps| && gaps[IndexOf(gaps, g)] == g
    ensures forall j :: 0 <= j < IndexOf(gaps, g) ==> gaps[j] != g
  {
    if gaps[0] != g {
      assert g in gaps[1..];
      IndexOfFirst(gaps[1..], g);
    }
  }

  /** The pair to merge next, or None when no pair qualifies (the loop's `break`). */
  function PickGap(gaps: seq<Gap>, maxDuration: real, maxGap: real): Option<nat> {
    var usable := UsableGaps(gaps, maxDuration, maxGap);
    if usable == [] then None
    else Some(IndexOf(gaps, MinByGap(usable)))
  }

  /** The pair picked is usable and has the smallest usable gap; None exactly
      when no pair is usable. */
  lemma {:induction false} PickGapIsSmallest(gaps: seq<Gap>, maxDuration: real, maxGap: real)
    ensures PickGap(gaps, maxDuration, maxGap).None? <==>
              forall j :: 0 <= j < |gaps| ==> !Usable(gaps[j], maxDuration, maxGap)
    ensures forall k :: PickGap(gaps, maxDuration, maxGap) == Some(k) ==>
              && k < |gaps|
              && Usable(gaps[k], maxDuration, maxGap)
              && (forall j :: 0 <= j < |gaps| && Usable(gaps[j], maxDuration, maxGap) ==> gaps[k].gap <= gaps[j].gap)
  {
    var usable := UsableGaps(gaps, maxDuration, maxGap);
    UsableGapsMembers(gaps, maxDuration, maxGap);
    if usable != [] {
      MinByGapIsLeast(usable);
      IndexOfFirst(gaps, MinByGap(usable));
    }
    forall j | 0 <= j < |gaps| && Usable(gaps[j], maxDuration, maxGap) ensures gaps[j] in usable {
      assert gaps[j] in gaps;
    }
  }

  /** Among pairs with the smallest usable gap, the earliest is picked. */
  lemma {:induction false} PickGapIsEarliest(gaps: seq<Gap>, maxDuration: real, maxGap: real)
    ensures forall k :: PickGap(gaps, maxDuration, maxGap) == Some(k) ==>
              k < |gaps| && forall j :: 0 <= j < k && Usable(gaps[j], maxDuration, maxGap) ==> gaps[k].gap < gaps[j].gap
  {
    var usable := UsableGaps(gaps, maxDuration, maxGap);
    if usable != [] {
      var m := MinByGap(usable);
      var k := IndexOf(gaps, m);
      var rest := gaps[1..];
      var ur := UsableGaps(rest, maxDuration, maxGap);
      UsableGapsMembers(gaps, maxDuration, maxGap);
      MinByGapIsLeast(usable);
      IndexOfFirst(gaps, m);
      if m != gaps[0] {
        assert k == 1 + IndexOf(rest, m);
        assert ur != [] && MinByGap(ur) == m by {
          if Usable(gaps[0], maxDuration, maxGap) {
            assert usable == [gaps[0]] + ur;
          } else {
            assert usable == ur;
          }
        }
        PickGapIsEarliest(rest, maxDuration, maxGap);
        assert PickGap(rest, maxDuration, maxGap) == Some(k - 1);
        forall j | 0 <= j < k && Usable(gaps[j], maxDuration, maxGap) ensures m.gap < gaps[j].gap {
          if j == 0 {
            assert usable == [gaps[0]] + ur;
          } else {
            assert gaps[j] == rest[j - 1];
          }
        }
      }
    }
  }

  /** `results[m : m + 2] = [VoiceActivityChunk(start=results[m].start, end=results[m + 1].end)]` */
  function MergeAt(rs: seq<Chunk>, m: nat): (r: seq<Chunk>)
    requires m + 1 < |rs|
    ensures |r| == |rs| - 1
  {
    rs[..m] + [Chunk(rs[m].start, rs[m + 1].end)] + rs[m + 2..]
  }

  /** The reference definition of `_merge_close_chunks`: keep merging the pair
      PickGap chooses until none qualifies. */
  function GreedyMerge(rs: seq<Chunk>, maxDuration: real, maxGap: real): seq<Chunk>
    decreases |rs|
  {
    if |rs| <= 1 then rs
    else
      match PickGap(GapTable(rs), maxDuration, maxGap)
      case None => rs
      case Some(m) =>
        if m + 1 < |rs| then GreedyMerge(MergeAt(rs, m), maxDuration, maxGap) else rs
  }

  /** One round of close-merging: the picked pair is merged and merging goes on. */
  lemma {:induction false} GreedyMergeStep(rs: seq<Chunk>, maxDuration: real, maxGap: real, m: nat)
    requires |rs| > 1 && PickGap(GapTable(rs), maxDuration, maxGap) == Some(m)
    ensures m + 1 < |rs|
    ensures GreedyMerge(rs, maxDuration, maxGap) == GreedyMerge(MergeAt(rs, m), maxDuration, maxGap)
  {
    PickGapIsSmallest(GapTable(rs), maxDuration, maxGap);
  }

  /** Close-merging stops when fewer than two chunks remain or no pair qualifies. */
  lemma {:induction false} GreedyMergeStop(rs: seq<Chunk>, maxDuration: real, maxGap: real)
    requires |rs| <= 1 || PickGap(GapTable(rs), maxDuration, maxGap).None?
    ensures GreedyMerge(rs, maxDuration, maxGap) == rs
  {
  }

  /** After merging pair m, the two gap-table edits of `_merge_close_chunks`
      (recompute entry m - 1, replace entries m, m + 1 by one recomputed entry)
      leave the table aligned with the new chunk list. */
  lemma {:induction false} GapTableAfterMerge(rs: seq<Chunk>, gaps: seq<Gap>, m: nat)
    requires m + 1 < |rs| && gaps == GapTable(rs)
    ensures var rs' := MergeAt(rs, m);
      var g1 := if m >= 1 then gaps[m - 1 := GapAt(rs', m - 1)] else gaps;
      var g2 := if m < |g1| - 1 then g1[..m] + [GapAt(rs', m)] + g1[m + 2..] else g1[..m];
      g2 == GapTable(rs')
  {
    var rs' := MergeAt(rs, m);
    var g1 := if m >= 1 then gaps[m - 1 := GapAt(rs', m - 1)] else gaps;
    var g2 := if m < |g1| - 1 then g1[..m] + [GapAt(rs', m)] + g1[m + 2..] else g1[..m];
    assert |g2| == |rs'| - 1;
    forall i | 0 <= i < |g2| ensures g2[i] == GapAt(rs', i) {
      if i < m - 1 {
        assert rs'[i] == rs[i] && rs'[i + 1] == rs[i + 1];
      } else if i > m {
        assert g2[i] == gaps[i + 1];
        assert rs'[i] == rs[i + 1] && rs'[i + 1] == rs[i + 2];
      }
    }
  }

  /** `_merge_close_chunks`: merges in place, keeping the gap table `gaps`
      aligned with `results` by recomputing only the entries next to the merge. */
  method MergeClose(chunks: seq<Chunk>, maxDuration: real, maxGap: real) returns (results: seq<Chunk>)
    ensures results == GreedyMerge(chunks, maxDuration, maxGap)
  {
    if |chunks| <= 1 {
      return chunks;
    }
    results := chunks;
    var gaps := seq(|results| - 1, i requires 0 <= i < |results| - 1 => GapAt(results, i));
    while |results| >= 2
      invariant |results| >= 1
      invariant gaps == GapTable(results)
      invariant GreedyMerge(results, maxDuration, maxGap) == GreedyMerge(chunks, maxDuration, maxGap)
      decreases |results|
    {
      var pick := PickGap(gaps, maxDuration, maxGap);
      if pick.None? {
        break;
      }
      var m := pick.value;
      GreedyMergeStep(results, maxDuration, maxGap, m);
      GapTableAfterMerge(results, gaps, m);
      results := MergeAt(results, m);
      if m - 1 >= 0 {
        gaps := gaps[m - 1 := GapAt(results, m - 1)];
      }
      if m < |gaps| - 1 {
        gaps := gaps[..m] + [GapAt(results, m)] + gaps[m + 2..];
      } else {
        gaps := gaps[..m];  // the slice m : m + 2 runs off the end: drop the last entry
      }
    }
  }

  lemma {:induction false} MergeAtSeparated(rs: seq<Chunk>, m: nat)
    requires m + 1 < |rs| && Separated(rs)
    ensures Separated(MergeAt(rs, m))
    ensures MergeAt(rs, m)[0].start == rs[0].start
    ensures Last(MergeAt(rs, m)).end == Last(rs).end
  {
    var r := MergeAt(rs, m);
    forall i | 0 <= i < |r| ensures ValidChunk(r[i]) {
      if i < m { assert r[i] == rs[i]; }
      else if i == m { assert rs[m].end < rs[m + 1].start; }
      else { assert r[i] == rs[i + 1]; }
    }
    forall i | 0 < i < |r| ensures r[i - 1].end < r[i].start {
      if i < m { assert r[i - 1] == rs[i - 1] && r[i] == rs[i]; }
      else if i == m { assert r[i - 1] == rs[i - 1]; }
      else if i == m + 1 { assert r[i] == rs[i + 1]; }
      else { assert r[i - 1] == rs[i] && r[i] == rs[i + 1]; }
    }
  }

  /** Close-merging keeps the chunks separated, keeps the first start and the
      last end, never grows the list, and stops only when no adjacent pair
      qualifies any more. */
  lemma {:induction false} GreedyMergeShape(rs: seq<Chunk>, maxDuration: real, maxGap: real)
    requires Separated(rs)
    ensures var r := GreedyMerge(rs, maxDuration, maxGap);
      && Separated(r)
      && |r| <= |rs|
      && (rs != [] ==> r != [] && r[0].start == rs[0].start && Last(r).end == Last(rs).end)
      && (forall i :: 0 <= i < |r| - 1 ==> !Usable(GapAt(r, i), maxDuration, maxGap))
    decreases |rs|
  {
    if |rs| > 1 {
      PickGapIsSmallest(GapTable(rs), maxDuration, maxGap);
      match PickGap(GapTable(rs), maxDuration, maxGap)
      case None =>
        forall i | 0 <= i < |rs| - 1 ensures !Usable(GapAt(rs, i), maxDuration, maxGap) {
          assert GapTable(rs)[i] == GapAt(rs, i);
        }
      case Some(m) =>
        MergeAtSeparated(rs, m);
        GreedyMergeShape(MergeAt(rs, m), maxDuration, maxGap);
    }
  }

  /** Merging never splits a chunk: every input chunk lies within an output chunk. */
  lemma {:induction false} GreedyMergeContains(rs: seq<Chunk>, maxDuration: real, maxGap: real, i: nat)
    requires Separated(rs) && i < |rs|
    ensures exists d :: d in GreedyMerge(rs, maxDuration, maxGap) && d.start <= rs[i].start && rs[i].end <= d.end
    decreases |rs|
  {
    if |rs| <= 1 || PickGap(GapTable(rs), maxDuration, maxGap).None? {
      GreedyMergeStop(rs, maxDuration, maxGap);
      assert rs[i] in GreedyMerge(rs, maxDuration, maxGap);
    } else {
      var m := PickGap(GapTable(rs), maxDuration, maxGap).value;
      GreedyMergeStep(rs, maxDuration, maxGap, m);
      var rs' := MergeAt(rs, m);
      var i' := if i <= m then i else i - 1;
      assert rs'[i'].start <= rs[i].start && rs[i].end <= rs'[i'].end by {
        if i < m { assert rs'[i'] == rs[i]; }
        else if i > m + 1 { assert rs'[i'] == rs[i]; }
        else { assert rs'[m] == Chunk(rs[m].start, rs[m + 1].end); assert rs[m].end < rs[m + 1].start; }
      }
      MergeAtSeparated(rs, m);
      GreedyMergeContains(rs', maxDuration, maxGap, i');
      var d :| d in GreedyMerge(rs', maxDuration, maxGap) && d.start <= rs'[i'].start && rs'[i'].end <= d.end;
      assert d in GreedyMerge(rs, maxDuration, maxGap);
    }
  }

  /** Every output chunk is an input chunk or a merge spanning at most the ceiling. */
  lemma {:induction false} GreedyMergeBounded(rs: seq<Chunk>, maxDuration: real, maxGap: real, d: Chunk)
    requires d in GreedyMerge(rs, maxDuration, maxGap)
    ensures d in rs || Duration(d) <= maxDuration
    decreases |rs|
  {
    if |rs| <= 1 || PickGap(GapTable(rs), maxDuration, maxGap).None? {
      GreedyMergeStop(rs, maxDuration, maxGap);
    } else {
      var m := PickGap(GapTable(rs), maxDuration, maxGap).value;
      GreedyMergeStep(rs, maxDuration, maxGap, m);
      var rs' := MergeAt(rs, m);
      GreedyMergeBounded(rs', maxDuration, maxGap, d);
      MergeAtMembers(rs, m, maxDuration, maxGap);
    }
  }

  /** The chunks after one merge: old ones, plus the merged pair, whose span is within the ceiling. */
  lemma {:induction false} MergeAtMembers(rs: seq<Chunk>, m: nat, maxDuration: real, maxGap: real)
    requires |rs| > 1 && PickGap(GapTable(rs), maxDuration, maxGap) == Some(m)
    requires m + 1 < |rs|
    ensures forall d :: d in MergeAt(rs, m) ==> d in rs || Duration(d) <= maxDuration
  {
    PickGapIsSmallest(GapTable(rs), maxDuration, maxGap);
    assert GapTable(rs)[m] == GapAt(rs, m);
    var rs' := MergeAt(rs, m);
    forall d | d in rs' ensures d in rs || Duration(d) <= maxDuration {
      var i :| 0 <= i < |rs'| && rs'[i] == d;
      if i < m { assert rs'[i] == rs[i]; }
      else if i > m { assert rs'[i] == rs[i + 1]; }
    }
  }

  /** A chunk longer than the ceiling is never merged and appears whole in the output. */
  lemma {:induction false} GreedyMergeKeepsLong(rs: seq<Chunk>, maxDuration: real, maxGap: real, i: nat)
    requires Separated(rs) && i < |rs| && Duration(rs[i]) > maxDuration
    ensures rs[i] in GreedyMerge(rs, maxDuration, maxGap)
    decreases |rs|
  {
    if |rs| > 1 && PickGap(GapTable(rs), maxDuration, maxGap).Some? {
      var m := PickGap(GapTable(rs), maxDuration, maxGap).value;
      GreedyMergeStep(rs, maxDuration, maxGap, m);
      PickGapIsSmallest(GapTable(rs), maxDuration, maxGap);
      assert GapTable(rs)[m] == GapAt(rs, m);
      var rs' := MergeAt(rs, m);
      assert i != m && i != m + 1 by {
        assert rs[m].end < rs[m + 1].start;
      }
      var i' := if i < m then i else i - 1;
      assert rs'[i'] == rs[i];
      MergeAtSeparated(rs, m);
      GreedyMergeKeepsLong(rs', maxDuration, maxGap, i');
    }
  }

  // ---------------------------------------------------------------------
  // Step 3: drop chunks shorter than min_duration
  // ---------------------------------------------------------------------

  /** `[x for x in chunks if x.duration >= min_duration]` */
  function DropShort(cs: seq<Chunk>, minDuration: real): (r: seq<Chunk>)
    ensures forall c :: c in r <==> c in cs && Duration(c) >= minDuration
    ensures |r| <= |cs|
    ensures Separated(cs) ==> Separated(r)
    ensures r != [] && Separated(cs) ==> cs[0].start <= r[0].start
  {
    if cs == [] then []
    else
      assert cs == [cs[0]] + cs[1..];
      var rest := DropShort(cs[1..], minDuration);
      assert Separated(cs) && rest != [] ==> cs[0].end < cs[1].start <= rest[0].start;
      if Duration(cs[0]) >= minDuration then [cs[0]] + rest else rest
  }

  // ---------------------------------------------------------------------
  // Step 4: padding, clamped at the midpoint of the gap to each neighbour
  // ---------------------------------------------------------------------

  /** The chunk `_pad_chunks` builds for position i (before validation). */
  function PaddedAt(cs: seq<Chunk>, i: nat, padding: real): Chunk
    requires i < |cs|
  {
    var c := cs[i];
    var minStart := if i == 0 then 0.0 else c.start - (c.start - cs[i - 1].end) / 2.0;
    var maxEnd := if i >= |cs| - 1 then c.end + padding else c.end + (cs[i + 1].start - c.end) / 2.0;
    Chunk(Max(c.start - padding, minStart), Min(c.end + padding, maxEnd))
  }

  /** The outcome of `_pad_chunks`: ValueError from the chunk validator when a
      padded chunk is empty, otherwise one padded chunk per input chunk. */
  function Padded(cs: seq<Chunk>, padding: real): Result<seq<Chunk>> {
    if forall i :: 0 <= i < |cs| ==> ValidChunk(PaddedAt(cs, i, padding))
    then Ok(seq(|cs|, i requires 0 <= i < |cs| => PaddedAt(cs, i, padding)))
    else Err(ValueError("AudioChunk start must be before end"))
  }

  /** `_pad_chunks`: appends one padded chunk per input chunk. */
  method PadChunks(cs: seq<Chunk>, padding: real) returns (r: Result<seq<Chunk>>)
    ensures r == Padded(cs, padding)
  {
    var results: seq<Chunk> := [];
    for idx := 0 to |cs|
      invariant |results| == idx
      invariant forall i :: 0 <= i < idx ==> results[i] == PaddedAt(cs, i, padding) && ValidChunk(results[i])
    {
      var chunk := cs[idx];
      var minStart := if idx == 0 then 0.0 else chunk.start - ((chunk.start - cs[idx - 1].end) / 2.0);
      var maxEnd := if idx >= |cs| - 1 then chunk.end + padding else chunk.end + ((cs[idx + 1].start - chunk.end) / 2.0);
      var padded := NewChunk(Max(chunk.start - padding, minStart), Min(chunk.end + padding, maxEnd));
      assert padded.Ok? <==> ValidChunk(PaddedAt(cs, idx, padding));
      if padded.Err? {
        return Err(padded.error);
      }
      results := results + [padded.value];
    }
    assert results == seq(|cs|, i requires 0 <= i < |cs| => PaddedAt(cs, i, padding));
    r := Ok(results);
  }

  /** For separated chunks starting at or after 0 and non-negative padding, the
      padded chunk i is valid, starts at or after 0, contains the original,
      grows by at most `padding` on each side, and stays within the midpoint
      of the gap to each neighbour (so neighbours never overlap). */
  lemma {:induction false} PaddedAtBounds(cs: seq<Chunk>, i: nat, padding: real)
    requires Separated(cs) && padding >= 0.0 && i < |cs|
    requires cs[0].start >= 0.0
    ensures var p := PaddedAt(cs, i, padding);
      && ValidChunk(p) && p.start >= 0.0
      && cs[i].start - padding <= p.start <= cs[i].start
      && cs[i].end <= p.end <= cs[i].end + padding
      && (i > 0 ==> (cs[i - 1].end + cs[i].start) / 2.0 <= p.start)
      && (i + 1 < |cs| ==> p.end <= (cs[i].end + cs[i + 1].start) / 2.0)
  {
    if i > 0 {
      assert cs[i - 1].end < cs[i].start;
      assert cs[i - 1].end >= 0.0 by {
        if i - 1 > 0 { SeparatedOrdered(cs, 0, i - 1); }
      }
    }
    if i + 1 < |cs| { assert cs[i].end < cs[i + 1].start; }
  }

  /** Under the same conditions padding never raises, and yields one padded
      chunk per input chunk. */
  lemma {:induction false} PaddingSucceeds(cs: seq<Chunk>, padding: real)
    requires Separated(cs) && padding >= 0.0
    requires cs != [] ==> cs[0].start >= 0.0
    ensures Padded(cs, padding).Ok?
    ensures |Padded(cs, padding).value| == |cs|
    ensures forall i :: 0 <= i < |cs| ==> Padded(cs, padding).value[i] == PaddedAt(cs, i, padding)
  {
    forall i | 0 <= i < |cs| ensures ValidChunk(PaddedAt(cs, i, padding)) {
      PaddedAtBounds(cs, i, padding);
    }
  }

  // ---------------------------------------------------------------------
  // The whole pipeline
  // ---------------------------------------------------------------------

  /** The reference outcome of `diarization_to_voice_activity`: the ceiling for
      close-merging is max_duration less the padding added on both sides. */
  function Pipeline(segments: seq<(real, real)>, padding: real, minDuration: real, maxDuration: real, maxGap: real): Result<seq<Chunk>> {
    if maxGap < padding then Err(ValueError("max_gap must be larger than padding"))
    else
      match ToChunks(segments)
      case Err(e) => Err(e)
      case Ok(chunks) => Cleaned(chunks, padding, minDuration, maxDuration - 2.0 * padding, maxGap)
  }

  /** The four steps applied to the converted chunks. */
  function Cleaned(chunks: seq<Chunk>, padding: real, minDuration: real, ceiling: real, maxGap: real): Result<seq<Chunk>> {
    Padded(DropShort(GreedyMerge(Sweep(SortByStart(chunks)), ceiling, maxGap), minDuration), padding)
  }

  lemma {:induction false} PipelineIsCleaned(segments: seq<(real, real)>, padding: real, minDuration: real, maxDuration: real, maxGap: real)
    requires maxGap >= padding && ToChunks(segments).Ok?
    ensures Pipeline(segments, padding, minDuration, maxDuration, maxGap)
      == Cleaned(ToChunks(segments).value, padding, minDuration, maxDuration - 2.0 * padding, maxGap)
  {
  }

  /** `diarization_to_voice_activity` over the segments' (start, end) pairs. */
  method DiarizationToVoiceActivity(segments: seq<(real, real)>, padding: real, minDuration: real,
                                    maxDuration: real, maxGap: real)
    returns (r: Result<seq<Chunk>>)
    ensures r == Pipeline(segments, padding, minDuration, maxDuration, maxGap)
  {
    var ceiling := maxDuration - 2.0 * padding;
    if maxGap < padding {
      return Err(ValueError("max_gap must be larger than padding"));
    }
    var converted := ToChunks(segments);
    if converted.Err? {
      return Err(converted.error);
    }
    PipelineIsCleaned(segments, padding, minDuration, maxDuration, maxGap);
    var chunks := MergeOverlapping(converted.value);
    chunks := MergeClose(chunks, ceiling, maxGap);
    chunks := DropShort(chunks, minDuration);
    r := PadChunks(chunks, padding);
  }

  /** The conversion's error cases: max_gap < padding, and any segment with
      start >= end (a zero-length segment aborts everything); no segments and
      a valid max_gap give no chunks. */
  lemma {:induction false} PipelineErrors(segments: seq<(real, real)>, padding: real, minDuration: real, maxDuration: real, maxGap: real)
    ensures maxGap < padding ==> Pipeline(segments, padding, minDuration, maxDuration, maxGap).Err?
    ensures (exists i :: 0 <= i < |segments| && segments[i].0 >= segments[i].1) ==>
              Pipeline(segments, padding, minDuration, maxDuration, maxGap).Err?
    ensures maxGap >= padding && segments == [] ==> Pipeline(segments, padding, minDuration, maxDuration, maxGap) == Ok([])
  {
    if maxGap >= padding && segments == [] {
      var ceiling := maxDuration - 2.0 * padding;
      assert SortByStart([]) == [] && Sweep([]) == [];
      assert GreedyMerge([], ceiling, maxGap) == [];
      assert DropShort([], minDuration) == [];
      assert Padded([], padding).Ok? && |Padded([], padding).value| == 0;
    }
  }

  /** The three merging and filtering steps on valid chunks starting at or
      after 0: separated chunks starting at or after 0, none shorter than
      min_duration. */
  lemma {:induction false} MergedLayout(chunks: seq<Chunk>, minDuration: real, ceiling: real, maxGap: real)
    requires forall i :: 0 <= i < |chunks| ==> ValidChunk(chunks[i]) && chunks[i].start >= 0.0
    ensures var kept := DropShort(GreedyMerge(Sweep(SortByStart(chunks)), ceiling, maxGap), minDuration);
      && Separated(kept)
      && (kept != [] ==> kept[0].start >= 0.0)
      && (forall i :: 0 <= i < |kept| ==> Duration(kept[i]) >= minDuration)
  {
    var sorted := SortByStart(chunks);
    SortKeepsMembers(chunks);
    forall i | 0 <= i < |sorted| ensures ValidChunk(sorted[i]) && sorted[i].start >= 0.0 {
      assert sorted[i] in chunks;
    }
    SweepShape(sorted);
    var swept := Sweep(sorted);
    GreedyMergeShape(swept, ceiling, maxGap);
    var kept := DropShort(GreedyMerge(swept, ceiling, maxGap), minDuration);
    forall i | 0 <= i < |kept| ensures Duration(kept[i]) >= minDuration {
      assert kept[i] in kept;
    }
  }

  /** The four steps on valid chunks starting at or after 0, with
      non-negative padding: ordered, non-overlapping chunks starting at or
      after 0, each at least min_duration long. */
  lemma {:induction false} CleanedLayout(chunks: seq<Chunk>, padding: real, minDuration: real, ceiling: real, maxGap: real)
    requires padding >= 0.0
    requires forall i :: 0 <= i < |chunks| ==> ValidChunk(chunks[i]) && chunks[i].start >= 0.0
    ensures Cleaned(chunks, padding, minDuration, ceiling, maxGap).Ok?
    ensures var r := Cleaned(chunks, padding, minDuration, ceiling, maxGap).value;
      && (forall i :: 0 <= i < |r| ==> ValidChunk(r[i]) && r[i].start >= 0.0)
      && (forall i :: 0 < i < |r| ==> r[i - 1].end <= r[i].start)
      && (forall i :: 0 <= i < |r| ==> Duration(r[i]) >= minDuration)
  {
    var kept := DropShort(GreedyMerge(Sweep(SortByStart(chunks)), ceiling, maxGap), minDuration);
    assert Cleaned(chunks, padding, minDuration, ceiling, maxGap) == Padded(kept, padding);
    MergedLayout(chunks, minDuration, ceiling, maxGap);
    PaddingSucceeds(kept, padding);
    var r := Padded(kept, padding).value;
    forall i | 0 <= i < |r| ensures ValidChunk(r[i]) && r[i].start >= 0.0 && Duration(r[i]) >= minDuration {
      PaddedAtBounds(kept, i, padding);
    }
    forall i | 0 < i < |r| ensures r[i - 1].end <= r[i].start {
      PaddedAtBounds(kept, i, padding);
      PaddedAtBounds(kept, i - 1, padding);
    }
  }

  /** With valid segments starting at or after 0, non-negative padding and
      max_gap >= padding, the conversion succeeds with the layout above. */
  lemma {:induction false} PipelineLayout(segments: seq<(real, real)>, padding: real, minDuration: real, maxDuration: real, maxGap: real)
    requires maxGap >= padding && padding >= 0.0
    requires forall i :: 0 <= i < |segments| ==> 0.0 <= segments[i].0 < segments[i].1
    ensures Pipeline(segments, padding, minDuration, maxDuration, maxGap).Ok?
    ensures var r := Pipeline(segments, padding, minDuration, maxDuration, maxGap).value;
      && (forall i :: 0 <= i < |r| ==> ValidChunk(r[i]) && r[i].start >= 0.0)
      && (forall i :: 0 < i < |r| ==> r[i - 1].end <= r[i].start)
      && (forall i :: 0 <= i < |r| ==> Duration(r[i]) >= minDuration)
  {
    var chunks := ToChunks(segments).value;
    var ceiling := maxDuration - 2.0 * padding;
    PipelineIsCleaned(segments, padding, minDuration, maxDuration, maxGap);
    CleanedLayout(chunks, padding, minDuration, ceiling, maxGap);
  }
}
