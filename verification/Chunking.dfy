/**
 Cutting a large file into parts for the model.

 Lines are added to a part until the next one would reach the limit; the part then ends, unless the file
 is Python and no top-level statement starts there.  Joined by newlines the parts are the file again, and
 the cuts are where they must be and at the first place where they may be.
 */
module Chunking {
  import opened Options
  import opened Text

  const CHUNK_CHARS := 32000
  const MAX_CHUNKS := 40

  // Length of the joined lines, plus one.
  function Size(lines: seq<string>): nat {
    if lines == [] then 0 else Size(lines[..|lines| - 1]) + |lines[|lines| - 1]| + 1
  }

  // Line numbers at which a top-level Python statement starts; None for other files.
  type Boundaries = Option<set<nat>>

  // May a chunk end before line `n` (counted from 0)?
  predicate MayCut(bounds: Boundaries, n: nat) {
    bounds.None? || n + 1 in bounds.value
  }

  datatype Cutting = Cutting(chunks: seq<seq<string>>, current: seq<string>)

  // Line `n` joins the chunk that is being filled, or closes it and starts the next one.
  function Add(bounds: Boundaries, c: Cutting, n: nat, line: string): Cutting {
    if Size(c.current) + |line| + 1 > CHUNK_CHARS && c.current != [] && MayCut(bounds, n) then
      Cutting(c.chunks + [c.current], [line])
    else
      Cutting(c.chunks, c.current + [line])
  }

  // The chunks of the first `n` lines and the lines of the one that is being filled.
  function Cut(bounds: Boundaries, lines: seq<string>, n: nat): Cutting
    requires n <= |lines|
  {
    if n == 0 then Cutting([], []) else Add(bounds, Cut(bounds, lines, n - 1), n - 1, lines[n - 1])
  }

  function Chunks(bounds: Boundaries, lines: seq<string>): seq<seq<string>> {
    var c := Cut(bounds, lines, |lines|);
    if c.current != [] then c.chunks + [c.current] else c.chunks
  }

  function Texts(chunks: seq<seq<string>>): (r: seq<string>)
    ensures |r| == |chunks|
  {
    if chunks == [] then [] else Texts(chunks[..|chunks| - 1]) + [Join(chunks[|chunks| - 1])]
  }

  // None: the file needs too many chunks and is refused.
  method ChunkContent(bounds: Boundaries, content: string) returns (r: Option<seq<string>>)
    ensures r == if |Chunks(bounds, Split(content))| > MAX_CHUNKS then None
              else Some(Texts(Chunks(bounds, Split(content))))
  {
    var chunks := ChunkLines(bounds, Split(content));
    r := if |chunks| > MAX_CHUNKS then None else Some(chunks);
    AllFilled(bounds, Split(content), chunks);
    hide *;
  }

  method ChunkLines(bounds: Boundaries, lines: seq<string>) returns (chunks: seq<string>)
    ensures Done(bounds, lines, chunks)
  {
    hide *;
    chunks := [];
    var current, size: nat := [], 0;
    var i := 0;
    CutNone(bounds, lines);
    while i < |lines|
      invariant 0 <= i <= |lines| && Filled(bounds, lines, i, chunks, current, size)
    {
      FillNext(bounds, lines, i, chunks, current, size);
      var line := lines[i];
      if size + |line| + 1 > CHUNK_CHARS && current != [] && MayCut(bounds, i) {
        chunks, current, size := chunks + [Join(current)], [], 0;
      }
      current, size := current + [line], size + |line| + 1;
      i := i + 1;
    }
    FillEnd(bounds, lines, chunks, current, size);
    if current != [] { chunks := chunks + [Join(current)]; }
  }

  // The loop's variables after `n` lines.
  ghost predicate Filled(bounds: Boundaries, lines: seq<string>, n: nat, chunks: seq<string>, current: seq<string>,
        size: nat)
    requires n <= |lines|
  {
    var c := Cut(bounds, lines, n);
    chunks == Texts(c.chunks) && current == c.current && size == Size(current)
  }

  lemma {:induction false} CutNone(bounds: Boundaries, lines: seq<string>)
    ensures Filled(bounds, lines, 0, [], [], 0)
  {
  }

  lemma {:induction false} FillEnd(bounds: Boundaries, lines: seq<string>, chunks: seq<string>, current: seq<string>,
        size: nat)
    requires Filled(bounds, lines, |lines|, chunks, current, size)
    ensures Done(bounds, lines, if current != [] then chunks + [Join(current)] else chunks)
  {
    TextsAppend(Cut(bounds, lines, |lines|).chunks, current);
    hide Texts, Cut, Join;
  }

  // The texts of all chunks.
  ghost predicate Done(bounds: Boundaries, lines: seq<string>, chunks: seq<string>) {
    chunks == Texts(Chunks(bounds, lines))
  }

  lemma {:induction false} AllFilled(bounds: Boundaries, lines: seq<string>, chunks: seq<string>)
    requires Done(bounds, lines, chunks)
    ensures (if |Chunks(bounds, lines)| > MAX_CHUNKS then None else Some(Texts(Chunks(bounds, lines))))
         == if |chunks| > MAX_CHUNKS then None else Some(chunks)
  {
    hide Chunks, Texts;
  }

  lemma {:induction false} FillNext(bounds: Boundaries, lines: seq<string>, n: nat, chunks: seq<string>,
        current: seq<string>, size: nat)
    requires n < |lines| && Filled(bounds, lines, n, chunks, current, size)
    ensures var line := lines[n];
            if size + |line| + 1 > CHUNK_CHARS && current != [] && MayCut(bounds, n) then
              Filled(bounds, lines, n + 1, chunks + [Join(current)], [] + [line], 0 + |line| + 1)
            else
              Filled(bounds, lines, n + 1, chunks, current + [line], size + |line| + 1)
  {
    var c, line := Cut(bounds, lines, n), lines[n];
    SizeAppend(current, line);
    SizeAppend([], line);
    TextsAppend(c.chunks, current);
    assert Size([]) == 0 && [] + [line] == [line];
    hide Size, Texts, Join;
  }

  lemma {:induction false} SizeAppend(lines: seq<string>, line: string)
    ensures Size(lines + [line]) == Size(lines) + |line| + 1
  {
    assert (lines + [line])[..|lines|] == lines;
  }

  lemma {:induction false} TextsAppend(chunks: seq<seq<string>>, chunk: seq<string>)
    ensures Texts(chunks + [chunk]) == Texts(chunks) + [Join(chunk)]
  {
    assert (chunks + [chunk])[..|chunks|] == chunks;
  }

  function Flatten(chunks: seq<seq<string>>): seq<string> {
    if chunks == [] then [] else Flatten(chunks[..|chunks| - 1]) + chunks[|chunks| - 1]
  }

  lemma {:induction false} FlattenAppend(chunks: seq<seq<string>>, chunk: seq<string>)
    ensures Flatten(chunks + [chunk]) == Flatten(chunks) + chunk
  {
    assert (chunks + [chunk])[..|chunks|] == chunks;
  }

  ghost predicate NoEmpty(chunks: seq<seq<string>>) {
    forall k {:trigger chunks[k]} :: 0 <= k < |chunks| ==> chunks[k] != []
  }

  // ---- Nothing is lost -------------------------------------------------------------------------

  lemma {:induction false} CutKeeps(bounds: Boundaries, lines: seq<string>, n: nat)
    requires n <= |lines|
    ensures Flatten(Cut(bounds, lines, n).chunks) + Cut(bounds, lines, n).current == lines[..n]
  {
    if n == 0 {
      assert lines[..0] == [];
    } else {
      CutNext(bounds, lines, n);
      hide *;
      CutKeeps(bounds, lines, n - 1);
      AddKeeps(bounds, Cut(bounds, lines, n - 1), lines[..n - 1], lines[n - 1]);
      TakeNext(lines, n);
    }
  }

  lemma {:induction false} CutNext(bounds: Boundaries, lines: seq<string>, n: nat)
    requires 0 < n <= |lines|
    ensures Cut(bounds, lines, n) == Add(bounds, Cut(bounds, lines, n - 1), n - 1, lines[n - 1])
  {
    hide Add;
  }

  lemma {:induction false} TakeNext(lines: seq<string>, n: nat)
    requires 0 < n <= |lines|
    ensures lines[..n] == lines[..n - 1] + [lines[n - 1]] && |lines[..n - 1]| == n - 1
  {
  }

  lemma {:induction false} AddKeeps(bounds: Boundaries, c: Cutting, done: seq<string>, line: string)
    requires Flatten(c.chunks) + c.current == done
    ensures var d := Add(bounds, c, |done|, line); Flatten(d.chunks) + d.current == done + [line]
  {
    FlattenAppend(c.chunks, c.current);
    hide Flatten, Size;
    assert Flatten(c.chunks) + (c.current + [line]) == (Flatten(c.chunks) + c.current) + [line];
  }

  lemma {:induction false} CutNoEmpty(bounds: Boundaries, lines: seq<string>, n: nat)
    requires n <= |lines|
    ensures NoEmpty(Cut(bounds, lines, n).chunks) && (n > 0 ==> Cut(bounds, lines, n).current != [])
  {
    if n > 0 {
      hide Size;
      CutNoEmpty(bounds, lines, n - 1);
    }
  }

  lemma {:induction false} JoinTexts(chunks: seq<seq<string>>)
    requires NoEmpty(chunks)
    ensures Join(Texts(chunks)) == Join(Flatten(chunks))
    ensures chunks != [] ==> Flatten(chunks) != []
  {
    if chunks != [] {
      var init, last := chunks[..|chunks| - 1], chunks[|chunks| - 1];
      JoinTexts(init);
      assert Join([Join(last)]) == Join(last);
      if init != [] {
        JoinConcat(Texts(init), [Join(last)]);
        JoinConcat(Flatten(init), last);
      } else {
        assert Texts(chunks) == [Join(last)] && Flatten(chunks) == last;
      }
    }
  }

  // Joining the parts with newlines gives back the file.
  lemma {:induction false} ChunksKeepContent(bounds: Boundaries, content: string)
    ensures Join(Texts(Chunks(bounds, Split(content)))) == content
    ensures Flatten(Chunks(bounds, Split(content))) == Split(content) && NoEmpty(Chunks(bounds, Split(content)))
  {
    var lines := Split(content);
    CutKeeps(bounds, lines, |lines|);
    CutNoEmpty(bounds, lines, |lines|);
    var c := Cut(bounds, lines, |lines|);
    FlattenAppend(c.chunks, c.current);
    assert lines[..|lines|] == lines;
    JoinTexts(Chunks(bounds, lines));
    JoinSplit(content);
  }

  // ---- How large a part can be -----------------------------------------------------------------

  lemma {:induction false} SizeIsLength(lines: seq<string>)
    requires lines != []
    ensures Size(lines) == |Join(lines)| + 1
  {
    if |lines| > 1 {
      var init, last := lines[..|lines| - 1], lines[|lines| - 1];
      SizeIsLength(init);
      JoinConcat(init, [last]);
      assert lines == init + [last];
    } else {
      assert lines[..0] == [];
    }
  }

  // Within the limit, or a single line.
  ghost predicate Small(chunk: seq<string>) {
    Size(chunk) <= CHUNK_CHARS || |chunk| == 1
  }

  ghost predicate AllSmall(chunks: seq<seq<string>>) {
    forall k {:trigger chunks[k]} :: 0 <= k < |chunks| ==> Small(chunks[k])
  }

  lemma {:induction false} CutSmall(lines: seq<string>, n: nat)
    requires n <= |lines|
    ensures var c := Cut(None, lines, n); AllSmall(c.chunks) && Small(c.current)
  {
    if n > 0 {
      CutSmall(lines, n - 1);
      AddSmall(Cut(None, lines, n - 1), n - 1, lines[n - 1]);
      hide Add, Small;
    }
  }

  lemma {:induction false} AddSmall(c: Cutting, n: nat, line: string)
    requires AllSmall(c.chunks) && Small(c.current)
    ensures AllSmall(Add(None, c, n, line).chunks) && Small(Add(None, c, n, line).current)
  {
    SizeAppend(c.current, line);
    hide Size;
  }

  // Without boundaries every part is shorter than the limit, or is one line.
  lemma {:induction false} PartsAreSmall(content: string, k: nat)
    requires k < |Chunks(None, Split(content))|
    ensures var parts := Chunks(None, Split(content));
            Texts(parts)[k] == Join(parts[k]) && (|Texts(parts)[k]| < CHUNK_CHARS || |parts[k]| == 1)
  {
    var lines := Split(content);
    CutSmall(lines, |lines|);
    ChunksKeepContent(None, content);
    TextsAt(Chunks(None, lines), k);
    SizeIsLength(Chunks(None, lines)[k]);
  }

  lemma {:induction false} TextsAt(chunks: seq<seq<string>>, k: nat)
    requires k < |chunks|
    ensures Texts(chunks)[k] == Join(chunks[k])
  {
    if k < |chunks| - 1 { TextsAt(chunks[..|chunks| - 1], k); }
  }

  // ---- Where a part can start ------------------------------------------------------------------

  // Every part after the first starts at a line where a cut is allowed.
  ghost predicate StartsAllowed(bounds: Boundaries, chunks: seq<seq<string>>) {
    forall k {:trigger chunks[..k]} :: 0 < k < |chunks| ==> MayCut(bounds, |Flatten(chunks[..k])|)
  }

  // ... and so does the one that follows them.
  ghost predicate Started(bounds: Boundaries, chunks: seq<seq<string>>) {
    StartsAllowed(bounds, chunks) && (chunks != [] ==> MayCut(bounds, |Flatten(chunks)|))
  }

  lemma {:induction false} CutStarts(bounds: Boundaries, lines: seq<string>, n: nat, c: Cutting)
    requires n <= |lines| && c == Cut(bounds, lines, n)
    ensures Started(bounds, c.chunks)
  {
    hide *;
    if n == 0 {
      NoneStarted(bounds, lines);
    } else {
      var before := Cut(bounds, lines, n - 1);
      CutNext(bounds, lines, n);
      CutLength(bounds, lines, n - 1, before);
      CutStarts(bounds, lines, n - 1, before);
      AddStarts(bounds, before, n - 1, lines[n - 1]);
    }
  }

  lemma {:induction false} NoneStarted(bounds: Boundaries, lines: seq<string>)
    ensures Cut(bounds, lines, 0).chunks == [] && Started(bounds, [])
  {
    hide Flatten, MayCut;
  }

  lemma {:induction false} CutLength(bounds: Boundaries, lines: seq<string>, n: nat, c: Cutting)
    requires n <= |lines| && c == Cut(bounds, lines, n)
    ensures |Flatten(c.chunks) + c.current| == n
  {
    CutKeeps(bounds, lines, n);
    hide *;
  }

  lemma {:induction false} AddStarts(bounds: Boundaries, c: Cutting, n: nat, line: string)
    requires |Flatten(c.chunks) + c.current| == n
    requires Started(bounds, c.chunks)
    ensures Started(bounds, Add(bounds, c, n, line).chunks)
  {
    FlattenAppend(c.chunks, c.current);
    StartsAppend(bounds, c.chunks, c.current);
    hide Flatten, StartsAllowed, Size;
  }

  lemma {:induction false} StartsAppend(bounds: Boundaries, chunks: seq<seq<string>>, chunk: seq<string>)
    requires Started(bounds, chunks)
    ensures StartsAllowed(bounds, chunks + [chunk])
  {
    var all := chunks + [chunk];
    forall k | 0 < k < |all|
      ensures MayCut(bounds, |Flatten(all[..k])|)
    {
      assert all[..k] == chunks[..k];
      if k == |chunks| { assert chunks[..k] == chunks; }
    }
  }

  // With boundaries every part after the first starts at a top-level statement.
  lemma {:induction false} PartsStartAtStatements(starts: set<nat>, content: string, k: nat)
    requires 0 < k < |Chunks(Some(starts), Split(content))|
    ensures |Flatten(Chunks(Some(starts), Split(content))[..k])| + 1 in starts
  {
    var lines := Split(content);
    var c := Cut(Some(starts), lines, |lines|);
    CutStarts(Some(starts), lines, |lines|, c);
    StartsAppend(Some(starts), c.chunks, c.current);
    assert StartsAllowed(Some(starts), Chunks(Some(starts), lines));
  }

  // ---- Where the cuts are ------------------------------------------------------------------------

  // The lines fit into one part together.
  ghost predicate FitTogether(lines: seq<string>) {
    |Join(lines)| < 32000
  }

  // The parts cover the lines before the `k`-th one's first.
  ghost function FirstLine(parts: seq<seq<string>>, k: nat): nat
    requires k <= |parts|
  {
    |Flatten(parts[..k])|
  }

  // Inside a part that starts at line `start`, a line at which a cut is allowed fits together with
  // the part's lines before it.
  ghost predicate NoCutMissed(bounds: Boundaries, part: seq<string>, start: nat) {
    forall m: nat {:trigger part[..m + 1]} :: 0 < m < |part| && (bounds.None? || start + m + 1 in bounds.value) ==>
      FitTogether(part[..m + 1])
  }

  // The part would not have fitted together with the first line of the next one.
  ghost predicate CutNeeded(part: seq<string>, next: seq<string>) {
    next != [] && !FitTogether(part + [next[0]])
  }

  // No cut is missed in the part, and the one in front of it is needed.
  ghost predicate WellCut(bounds: Boundaries, parts: seq<seq<string>>, k: nat)
    requires k < |parts|
  {
    && parts[k] != [] && NoCutMissed(bounds, parts[k], FirstLine(parts, k))
    && (k > 0 ==> CutNeeded(parts[k - 1], parts[k]))
  }

  // Parts are cut only where they must be, and at the first line where they may.
  ghost predicate Greedy(bounds: Boundaries, parts: seq<seq<string>>) {
    forall k {:trigger WellCut(bounds, parts, k)} :: 0 <= k < |parts| ==> WellCut(bounds, parts, k)
  }

  function AllParts(c: Cutting): seq<seq<string>> {
    if c.current != [] then c.chunks + [c.current] else c.chunks
  }

  lemma {:induction false} FitsBySize(lines: seq<string>)
    requires lines != []
    ensures FitTogether(lines) <==> Size(lines) <= CHUNK_CHARS
  {
    SizeIsLength(lines);
  }

  lemma {:induction false} StartPart(bounds: Boundaries, parts: seq<seq<string>>, line: string)
    requires Greedy(bounds, parts) && (parts != [] ==> !FitTogether(parts[|parts| - 1] + [line]))
    ensures Greedy(bounds, parts + [[line]])
  {
    var all := parts + [[line]];
    hide WellCut;
    forall k | 0 <= k < |all|
      ensures WellCut(bounds, all, k)
    {
      if k < |parts| { assert WellCut(bounds, parts, k); }
      StartAt(bounds, parts, line, k);
    }
  }

  lemma {:induction false} StartAt(bounds: Boundaries, parts: seq<seq<string>>, line: string, k: nat)
    requires k <= |parts| && (parts != [] ==> !FitTogether(parts[|parts| - 1] + [line]))
    requires k < |parts| ==> WellCut(bounds, parts, k)
    ensures WellCut(bounds, parts + [[line]], k)
  {
    assert (parts + [[line]])[..k] == parts[..k];
    hide FitTogether, Flatten;
  }

  // The parts with a line more in the last one.
  function Grown(parts: seq<seq<string>>, line: string): seq<seq<string>>
    requires parts != []
  {
    parts[..|parts| - 1] + [parts[|parts| - 1] + [line]]
  }

  lemma {:induction false} GrownAt(parts: seq<seq<string>>, line: string, k: nat)
    requires parts != [] && k < |parts|
    ensures |Grown(parts, line)| == |parts| && FirstLine(Grown(parts, line), k) == FirstLine(parts, k)
    ensures Grown(parts, line)[k] == if k < |parts| - 1 then parts[k] else parts[k] + [line]
  {
    assert Grown(parts, line)[..k] == parts[..k];
    hide Flatten;
  }

  lemma {:induction false} GrowPart(bounds: Boundaries, parts: seq<seq<string>>, line: string, n: nat)
    requires Greedy(bounds, parts) && parts != [] && |Flatten(parts)| == n
    requires MayCut(bounds, n) ==> FitTogether(parts[|parts| - 1] + [line])
    ensures Greedy(bounds, Grown(parts, line))
  {
    LastStart(parts);
    GrownAt(parts, line, 0);
    hide WellCut, FitTogether, Flatten, Grown, FirstLine, MayCut;
    forall k | 0 <= k < |Grown(parts, line)|
      ensures WellCut(bounds, Grown(parts, line), k)
    {
      assert WellCut(bounds, parts, k);
      GrowAt(bounds, parts, line, k);
    }
  }

  lemma {:induction false} GrowAt(bounds: Boundaries, parts: seq<seq<string>>, line: string, k: nat)
    requires k < |parts| && WellCut(bounds, parts, k)
    requires MayCut(bounds, FirstLine(parts, |parts| - 1) + |parts[|parts| - 1]|) ==>
               FitTogether(parts[|parts| - 1] + [line])
    ensures k < |Grown(parts, line)| && WellCut(bounds, Grown(parts, line), k)
  {
    var last := |parts| - 1;
    hide FitTogether, Grown, FirstLine, NoCutMissed, MayCut;
    GrownAt(parts, line, k);
    if k > 0 { GrownAt(parts, line, k - 1); }
    if k == last { GrowNoCutMissed(bounds, parts[last], FirstLine(parts, last), line); }
  }

  lemma {:induction false} LastStart(parts: seq<seq<string>>)
    requires parts != []
    ensures FirstLine(parts, |parts| - 1) + |parts[|parts| - 1]| == |Flatten(parts)|
  {
  }

  lemma {:induction false} GrowNoCutMissed(bounds: Boundaries, part: seq<string>, start: nat, line: string)
    requires NoCutMissed(bounds, part, start) && (MayCut(bounds, start + |part|) ==> FitTogether(part + [line]))
    ensures NoCutMissed(bounds, part + [line], start)
  {
    hide FitTogether;
    var grown := part + [line];
    forall m: nat {:trigger grown[..m + 1]} | 0 < m < |grown| && (bounds.None? || start + m + 1 in bounds.value)
      ensures FitTogether(grown[..m + 1])
    {
      assert grown[..m + 1] == if m < |part| then part[..m + 1] else grown;
    }
  }

  lemma {:induction false} AddGreedy(bounds: Boundaries, c: Cutting, n: nat, line: string)
    requires Greedy(bounds, AllParts(c)) && |Flatten(c.chunks) + c.current| == n
    requires c.current == [] ==> c.chunks == []
    ensures Greedy(bounds, AllParts(Add(bounds, c, n, line)))
  {
    var parts, d := AllParts(c), Add(bounds, c, n, line);
    SizeAppend(c.current, line);
    FitsBySize(c.current + [line]);
    FlattenAppend(c.chunks, c.current);
    hide Size, Join, FitTogether, Flatten, Greedy;
    if c.current == [] {
      assert AllParts(d) == parts + [[line]];
      StartPart(bounds, parts, line);
    } else if d.chunks == c.chunks {
      assert parts[..|parts| - 1] == c.chunks;
      assert AllParts(d) == Grown(parts, line);
      GrowPart(bounds, parts, line, n);
    } else {
      StartPart(bounds, parts, line);
    }
  }

  lemma {:induction false} CutGreedy(bounds: Boundaries, lines: seq<string>, n: nat, c: Cutting)
    requires n <= |lines| && c == Cut(bounds, lines, n)
    ensures Greedy(bounds, AllParts(c))
  {
    if n > 0 {
      var before := Cut(bounds, lines, n - 1);
      CutNext(bounds, lines, n);
      CutLength(bounds, lines, n - 1, before);
      CutNoEmpty(bounds, lines, n - 1);
      assert n == 1 ==> before == Cutting([], []);
      assert before.current == [] ==> before.chunks == [];
      hide *;
      CutGreedy(bounds, lines, n - 1, before);
      AddGreedy(bounds, before, n - 1, lines[n - 1]);
    }
  }

  // Each cut is needed, and none that is both needed and allowed is missed.
  lemma {:induction false} CutsAreGreedy(bounds: Boundaries, content: string)
    ensures Greedy(bounds, Chunks(bounds, Split(content)))
  {
    var lines := Split(content);
    CutGreedy(bounds, lines, |lines|, Cut(bounds, lines, |lines|));
    hide Greedy, Cut;
  }
}
