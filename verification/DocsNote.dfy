/**
 The maintenance note a documentation plan puts into a Markdown file: a block between a start and
 an end marker, replaced in place when the file already has one.

 The first part holds for any block between two markers; the last is about the note of a plan, whose
 sections may themselves carry the end marker.
 */
module DocsNote {
  import opened Options
  import opened Text

  datatype Sections = Sections(goal: Option<string>, evidence: Option<string>, entropy: Option<string>,
      verification: Option<string>)

  function StartMarker(id: string): string {
    "<!-- gardener-maintenance-note:start " + id + " -->"
  }

  function EndMarker(id: string): string {
    "<!-- gardener-maintenance-note:end " + id + " -->"
  }

  // Words separated by single spaces; `gap` says white space is pending.
  function Words(s: string): (r: (string, bool))
    ensures forall i :: 0 <= i < |r.0| ==> !IsSpace(r.0[i]) || r.0[i] == ' '
  {
    if s == "" then ("", false)
    else
      var (out, gap) := Words(s[..|s| - 1]);
      var c := s[|s| - 1];
      if IsSpace(c) then (out, true)
      else (out + (if gap && out != "" then " " else "") + [c], false)
  }

  function Section(value: Option<string>): (r: string)
    ensures '\n' !in r
  {
    if value.None? || Strip(value.value) == "" then "Not supplied." else Words(value.value).0
  }

  function BlockLines(id: string, s: Sections): seq<string> {
    [StartMarker(id),
     "## Gardener maintenance note",
     "",
     "Gardener opened this maintenance PR from plan `" + id + "`.",
     "",
     "- Goal: " + Section(s.goal),
     "- Evidence: " + Section(s.evidence),
     "- Entropy impact: " + Section(s.entropy),
     "- Verification: " + Section(s.verification),
     EndMarker(id)]
  }

  function Block(id: string, s: Sections): string {
    Join(BlockLines(id, s))
  }

  // Prefix, note and suffix with a blank line between those that are not empty.
  function Doc(prefix: string, block: string, suffix: string): string {
    (if prefix != "" then prefix + "\n\n" else "") + block + (if suffix != "" then "\n\n" + suffix else "") + "\n"
  }

  function JoinNoteParts(prefix: string, block: string, suffix: string): string {
    Doc(prefix, block, RStrip(suffix))
  }

  // Put the block into the document, in place of the note that is there or at the end.
  function ApplyBlock(content: string, block: string, start: string, end: string): string {
    var s := Find(content, start, 0);
    var e := if s.Some? then Find(content, end, s.value) else None;
    if e.Some? then JoinNoteParts(RStrip(content[..s.value]), block, LStripNewlines(content[e.value + |end|..]))
    else if Strip(content) != "" then RStrip(content) + "\n\n" + block + "\n"
    else block + "\n"
  }

  function ApplyNote(content: string, id: string, s: Sections): string {
    ApplyBlock(content, Block(id, s), StartMarker(id), EndMarker(id))
  }

  // A start marker with no end marker after it.
  predicate Dangling(content: string, start: string, end: string) {
    var s := Find(content, start, 0);
    s.Some? && Find(content, end, s.value) == None
  }

  // ---- The shape of a document with its note -------------------------------------------------

  ghost predicate IsMarker(m: string) {
    m != "" && '\n' !in m && !IsSpace(m[0]) && !IsSpace(m[|m| - 1])
  }

  // The block starts with the start marker and its last part is the end marker.
  ghost predicate IsBlock(block: string, start: string, end: string) {
    && IsMarker(start) && IsMarker(end)
    && |start| + |end| <= |block|
    && OccursAt(block, start, 0) && OccursAt(block, end, |block| - |end|)
  }

  // The block's only end marker is its last part.
  predicate OneEnd(block: string, end: string) {
    Find(block, end, 0) == Some(|block| - |end|)
  }

  ghost predicate NoStart(s: string, start: string) {
    forall k: nat :: !OccursAt(s, start, k)
  }

  // A marker cannot reach across a newline.
  lemma {:induction false} NotAcross(s: string, m: string, k: nat, j: nat)
    requires IsMarker(m) && k <= j < |s| && s[j] == '\n' && j < k + |m|
    ensures !OccursAt(s, m, k)
  {
    assert m[j - k] in m;
  }

  lemma {:induction false} OccursInPart(s: string, m: string, k: nat, lo: nat, hi: nat)
    requires lo <= k && k + |m| <= hi <= |s|
    ensures OccursAt(s, m, k) <==> OccursAt(s[lo..hi], m, k - lo)
  {
    assert forall j {:trigger m[j]} :: 0 <= j < |m| ==> s[lo..hi][k - lo + j] == s[k + j];
  }

  // How far the prefix part of a document reaches.
  function Lead(prefix: string): nat {
    if prefix != "" then |prefix| + 2 else 0
  }

  lemma {:induction false} DocParts(prefix: string, block: string, suffix: string)
    ensures var d, n := Doc(prefix, block, suffix), Lead(prefix);
            && n + |block| < |d| && d[n..n + |block|] == block
            && d[..n] == (if prefix != "" then prefix + "\n\n" else "")
            && d[n + |block|..] == (if suffix != "" then "\n\n" + suffix else "") + "\n"
  {
    var d, n := Doc(prefix, block, suffix), Lead(prefix);
    var lead, tail := (if prefix != "" then prefix + "\n\n" else ""), (if suffix != "" then "\n\n" + suffix else "")
        + "\n";
    assert d == lead + block + tail;
  }

  // A marker that does not occur in the prefix does not occur before the block either.
  lemma {:induction false} NotInLead(prefix: string, block: string, suffix: string, m: string, from: nat, k: nat)
    requires IsMarker(m) && from <= k < Lead(prefix)
    requires forall j: nat :: from <= j ==> !OccursAt(prefix, m, j)
    ensures !OccursAt(Doc(prefix, block, suffix), m, k)
  {
    var d := Doc(prefix, block, suffix);
    DocParts(prefix, block, suffix);
    assert d[0..Lead(prefix)] == d[..Lead(prefix)];
    if k + |m| <= |prefix| {
      assert d[0..|prefix|] == d[..Lead(prefix)][..|prefix|] == prefix;
      OccursInPart(d, m, k, 0, |prefix|);
    } else {
      var j := if k <= |prefix| then |prefix| else k;
      assert d[j] == d[..Lead(prefix)][j] == '\n';
      NotAcross(d, m, k, j);
    }
  }

  lemma {:induction false} StartOfDoc(prefix: string, block: string, suffix: string, start: string, end: string)
    requires IsBlock(block, start, end) && NoStart(prefix, start)
    ensures Find(Doc(prefix, block, suffix), start, 0) == Some(Lead(prefix))
  {
    var d, n := Doc(prefix, block, suffix), Lead(prefix);
    DocParts(prefix, block, suffix);
    OccursInPart(d, start, n, n, n + |block|);
    forall k: nat | k < n
      ensures !OccursAt(d, start, k)
    {
      NotInLead(prefix, block, suffix, start, 0, k);
    }
    FoundAt(d, start, 0, n);
  }

  lemma {:induction false} NoEndBefore(prefix: string, block: string, suffix: string, end: string, from: nat, k: nat)
    requires IsMarker(end) && Find(block, end, 0).Some? && from <= k < Lead(prefix) + Find(block, end, 0).value
    requires forall j: nat :: from <= j ==> !OccursAt(prefix, end, j)
    ensures !OccursAt(Doc(prefix, block, suffix), end, k)
  {
    var n := Lead(prefix);
    if k < n {
      NotInLead(prefix, block, suffix, end, from, k);
    } else {
      BlockOccurs(prefix, block, suffix, end, k - n);
    }
  }

  lemma {:induction false} BlockOccurs(prefix: string, block: string, suffix: string, m: string, k: nat)
    requires k + |m| <= |block|
    ensures OccursAt(Doc(prefix, block, suffix), m, Lead(prefix) + k) <==> OccursAt(block, m, k)
  {
    var n := Lead(prefix);
    DocParts(prefix, block, suffix);
    hide OccursAt, Doc, Lead;
    OccursInPart(Doc(prefix, block, suffix), m, n + k, n, n + |block|);
  }

  // Where the search for the end marker, begun at `from` in the prefix or at the block, stops.
  lemma {:induction false} EndOfDoc(prefix: string, block: string, suffix: string, start: string, end: string,
        from: nat)
    requires IsBlock(block, start, end) && from <= Lead(prefix)
    requires forall j: nat :: from <= j ==> !OccursAt(prefix, end, j)
    ensures Find(block, end, 0).Some?
    ensures Find(Doc(prefix, block, suffix), end, from) == Some(Lead(prefix) + Find(block, end, 0).value)
  {
    EndInBlockFound(block, start, end);
    var n := Lead(prefix) + Find(block, end, 0).value;
    BlockOccurs(prefix, block, suffix, end, Find(block, end, 0).value);
    forall k: nat | from <= k < n
      ensures !OccursAt(Doc(prefix, block, suffix), end, k)
    {
      NoEndBefore(prefix, block, suffix, end, from, k);
    }
    FoundAt(Doc(prefix, block, suffix), end, from, n);
  }

  lemma {:induction false} EndInBlockFound(block: string, start: string, end: string)
    requires IsBlock(block, start, end)
    ensures Find(block, end, 0).Some?
  {
    assert OccursAt(block, end, |block| - |end|);
  }

  lemma {:induction false} StripLead(prefix: string)
    requires IsRStripped(prefix)
    ensures RStrip(if prefix != "" then prefix + "\n\n" else "") == prefix
  {
    RStripAppend(prefix, "\n\n");
  }

  lemma {:induction false} StripTail(suffix: string)
    requires IsRStripped(suffix) && (suffix == "" || suffix[0] != '\n')
    ensures RStrip(LStripNewlines((if suffix != "" then "\n\n" + suffix else "") + "\n")) == suffix
  {
    var tail := (if suffix != "" then "\n\n" + suffix else "") + "\n";
    if suffix != "" {
      assert tail[1..][1..] == suffix + "\n";
      assert LStripNewlines(tail) == LStripNewlines(tail[1..]) == LStripNewlines(suffix + "\n") == suffix + "\n";
      RStripAppend(suffix, "\n");
    } else {
      assert tail[1..] == "";
    }
  }

  lemma {:induction false} NoFirstNewline(s: string)
    ensures var r := RStrip(LStripNewlines(s)); IsRStripped(r) && (r == "" || r[0] != '\n')
  {
    RStripParts(LStripNewlines(s));
  }

  // Applying the block to a document in this shape gives the same document back.
  lemma {:induction false} DocIsFixed(prefix: string, block: string, suffix: string, start: string, end: string)
    requires IsBlock(block, start, end) && OneEnd(block, end)
    requires IsRStripped(prefix) && NoStart(prefix, start)
    requires IsRStripped(suffix) && (suffix == "" || suffix[0] != '\n')
    ensures ApplyBlock(Doc(prefix, block, suffix), block, start, end) == Doc(prefix, block, suffix)
  {
    hide Doc, ApplyBlock, IsBlock, NoStart, IsRStripped;
    var n := Lead(prefix);
    StartOfDoc(prefix, block, suffix, start, end);
    EndInBlock(prefix, block, suffix, start, end);
    ReplacesNote(Doc(prefix, block, suffix), block, start, end, n, n + |block| - |end|);
    DocAround(prefix, block, suffix);
  }

  // The text around the block, stripped, is the prefix and suffix again.
  lemma {:induction false} DocAround(prefix: string, block: string, suffix: string)
    requires IsRStripped(prefix) && IsRStripped(suffix) && (suffix == "" || suffix[0] != '\n')
    ensures var d, n := Doc(prefix, block, suffix), Lead(prefix);
            n + |block| <= |d| && RStrip(d[..n]) == prefix && RStrip(LStripNewlines(d[n + |block|..])) == suffix
  {
    DocParts(prefix, block, suffix);
    StripLead(prefix);
    StripTail(suffix);
  }

  lemma {:induction false} EndInBlock(prefix: string, block: string, suffix: string, start: string, end: string)
    requires IsBlock(block, start, end)
    ensures Find(block, end, 0).Some?
    ensures Find(Doc(prefix, block, suffix), end, Lead(prefix)) == Some(Lead(prefix) + Find(block, end, 0).value)
  {
    forall j: nat | Lead(prefix) <= j
      ensures !OccursAt(prefix, end, j)
    {
    }
    EndOfDoc(prefix, block, suffix, start, end, Lead(prefix));
  }

  // ---- What applying the block does ----------------------------------------------------------

  // Without a note, the text keeps everything but trailing white space, and the note follows it.
  lemma {:induction false} AppendsNote(content: string, block: string, start: string, end: string)
    requires Find(content, start, 0) == None || Dangling(content, start, end)
    ensures ApplyBlock(content, block, start, end) == Doc(RStrip(content), block, "")
  {
    StripEmpty(content);
  }

  lemma {:induction false} StripEmpty(s: string)
    ensures Strip(s) == "" <==> RStrip(s) == ""
  {
    var r := RStrip(s);
    LStripParts(r);
    assert r[..|r|] == r;
  }

  // With a note, what stands before and after it stays, up to white space next to the note.
  lemma {:induction false} ReplacesNote(content: string, block: string, start: string, end: string, s: nat, e: nat)
    requires Find(content, start, 0) == Some(s) && Find(content, end, s) == Some(e)
    ensures ApplyBlock(content, block, start, end)
              == Doc(RStrip(content[..s]), block, RStrip(LStripNewlines(content[e + |end|..])))
  {
    hide Doc, Find, RStrip, LStripNewlines, IsRStripped;
  }

  lemma {:induction false} LStripNewlinesParts(s: string)
    ensures LStripNewlines(s) == s[|s| - |LStripNewlines(s)|..] && AllSpace(s[..|s| - |LStripNewlines(s)|])
  {
    if s != "" && s[0] == '\n' {
      LStripNewlinesParts(s[1..]);
      var n := |s| - |LStripNewlines(s)|;
      assert s[..n] == [s[0]] + s[1..][..n - 1];
    }
  }

  // The block stands alone: the end of the text or a blank line on either side of it.
  ghost predicate Framed(d: string, p: string, block: string, q: string) {
    d == if p == "" && q == "" then block + "\n"
         else if q == "" then p + "\n\n" + block + "\n"
         else if p == "" then block + "\n\n" + q + "\n"
         else p + "\n\n" + block + "\n\n" + q + "\n"
  }

  lemma {:induction false} DocIsFramed(p: string, block: string, q: string)
    ensures Framed(Doc(p, block, q), p, block, q)
  {
    assert "" + block == block && block + "" == block && p + "\n\n" + block + "" == p + "\n\n" + block;
    assert block + ("\n\n" + q) == block + "\n\n" + q;
    assert p + "\n\n" + block + ("\n\n" + q) == p + "\n\n" + block + "\n\n" + q;
  }

  // Without a note, or with half of one, the whole text stays, up to white space at its end.
  lemma {:induction false} AppendKeepsText(content: string, block: string, start: string, end: string)
    returns (p: string, w: string)
    requires Find(content, start, 0) == None || Dangling(content, start, end)
    ensures content == p + w && AllSpace(w) && IsRStripped(p)
    ensures Framed(ApplyBlock(content, block, start, end), p, block, "")
  {
    hide *;
    AppendsNote(content, block, start, end);
    RStripParts(content);
    p := RStrip(content);
    w := content[|p|..];
    DocIsFramed(p, block, "");
    CutAt(content, |p|);
  }

  // Replacing the note keeps the text before and after it, up to white space at its edges.
  lemma {:induction false} OutsideSurvives(content: string, block: string, start: string, end: string, s: nat, e: nat)
    returns (p: string, q: string, w1: string, w2: string, w3: string)
    requires Find(content, start, 0) == Some(s) && Find(content, end, s) == Some(e)
    ensures s <= |content| && e + |end| <= |content|
    ensures content[..s] == p + w1 && content[e + |end|..] == w2 + q + w3
    ensures AllSpace(w1) && AllSpace(w2) && AllSpace(w3)
    ensures ApplyBlock(content, block, start, end) == Doc(p, block, q) && Framed(Doc(p, block, q), p, block, q)
  {
    hide *;
    FoundInside(content, start, 0, s);
    FoundInside(content, end, s, e);
    ReplacesNote(content, block, start, end, s, e);
    var before, after := content[..s], content[e + |end|..];
    RStripParts(before);
    p := RStrip(before);
    w1 := before[|p|..];
    CutAt(before, |p|);
    LStripNewlinesParts(after);
    var kept := LStripNewlines(after);
    RStripParts(kept);
    q := RStrip(kept);
    w2, w3 := after[..|after| - |kept|], kept[|q|..];
    CutAt(after, |after| - |kept|);
    CutAt(kept, |q|);
    assert w2 + (q + w3) == w2 + q + w3;
    DocIsFramed(p, block, q);
  }

  lemma {:induction false} FoundInside(s: string, sub: string, from: nat, at: nat)
    requires Find(s, sub, from) == Some(at)
    ensures at + |sub| <= |s|
  {
  }

  lemma {:induction false} CutAt(s: string, n: nat)
    requires n <= |s|
    ensures s == s[..n] + s[n..]
  {
  }

  lemma {:induction false} PrefixOccurs(s: string, m: string, n: nat, k: nat)
    requires k + |m| <= n <= |s|
    ensures OccursAt(s[..n], m, k) <==> OccursAt(s, m, k)
  {
    assert forall j {:trigger m[j]} :: 0 <= j < |m| ==> s[..n][k + j] == s[k + j];
  }

  lemma {:induction false} NoStartBefore(content: string, start: string, s: nat)
    requires IsMarker(start) && s <= |content| && forall k: nat :: k < s ==> !OccursAt(content, start, k)
    ensures NoStart(RStrip(content[..s]), start)
  {
    var r := RStrip(content[..s]);
    RStripParts(content[..s]);
    assert r == content[..|r|];
    forall k: nat
      ensures !OccursAt(r, start, k)
    {
      if k + |start| <= |r| { assert !OccursAt(content, start, k); PrefixOccurs(content, start, |r|, k); }
    }
  }

  // A block with one end marker settles on a document without a dangling start marker.
  lemma {:induction false} CleanSettles(content: string, block: string, start: string, end: string)
    requires IsBlock(block, start, end) && OneEnd(block, end) && !Dangling(content, start, end)
    ensures var once := ApplyBlock(content, block, start, end); ApplyBlock(once, block, start, end) == once
  {
    var s := Find(content, start, 0);
    if s.None? {
      AppendsNote(content, block, start, end);
      assert content[..|content|] == content;
      NoStartBefore(content, start, |content|);
      DocIsFixed(RStrip(content), block, "", start, end);
    } else {
      var e := Find(content, end, s.value);
      ReplacesNote(content, block, start, end, s.value, e.value);
      NoStartBefore(content, start, s.value);
      NoFirstNewline(content[e.value + |end|..]);
      DocIsFixed(RStrip(content[..s.value]), block, RStrip(LStripNewlines(content[e.value + |end|..])), start, end);
    }
  }

  // With a dangling start marker the second application always changes the document: it would have
  // to find the end marker both behind the whole text and behind the text before the marker.
  lemma {:induction false} DanglingDiffers(content: string, block: string, start: string, end: string)
    requires IsBlock(block, start, end) && Dangling(content, start, end)
    ensures var once := ApplyBlock(content, block, start, end); ApplyBlock(once, block, start, end) != once
  {
    hide *;
    DanglingFinds(content, block, start, end);
    MarkerNotEmpty(block, start, end);
    var s, prefix := Find(content, start, 0).value, RStrip(content);
    var d, e := Doc(prefix, block, ""), Find(block, end, 0).value;
    FoundInside(d, end, s, Lead(prefix) + e);
    var before, behind := RStrip(content[..s]), RStrip(LStripNewlines(d[Lead(prefix) + e + |end|..]));
    AppendsNote(content, block, start, end);
    ReplacesNote(d, block, start, end, s, Lead(prefix) + e);
    EndInBlock(before, block, behind, start, end);
    LeadsDiffer(content, s, prefix);
    if Doc(before, block, behind) == d {
      GapBefore(content, s, block, behind);
    }
  }

  lemma {:induction false} LeadsDiffer(content: string, s: nat, prefix: string)
    requires s <= |content| && s < |prefix|
    ensures Lead(RStrip(content[..s])) < Lead(prefix)
  {
  }

  // The block begins with a character that is no white space, so it cannot begin before `s`.
  lemma {:induction false} GapBefore(content: string, s: nat, block: string, suffix: string)
    requires s <= |content| && block != "" && !IsSpace(block[0])
    requires var d := Doc(RStrip(content[..s]), block, suffix); s <= |d| && d[..s] == content[..s]
    ensures s <= Lead(RStrip(content[..s]))
  {
    var q := RStrip(content[..s]);
    var d := Doc(q, block, suffix);
    DocParts(q, block, suffix);
    assert d[Lead(q)] == d[Lead(q)..Lead(q) + |block|][0] == block[0];
    if Lead(q) < s {
      SamePrefixAt(d, content, s, Lead(q));
      WhiteBehindStrip(content[..s], Lead(q));
    }
  }

  lemma {:induction false} SamePrefixAt(a: string, b: string, n: nat, k: nat)
    requires k < n <= |a| && n <= |b| && a[..n] == b[..n]
    ensures a[k] == b[..n][k]
  {
    assert a[..n][k] == a[k];
  }

  lemma {:induction false} WhiteBehindStrip(s: string, k: nat)
    requires |RStrip(s)| <= k < |s|
    ensures IsSpace(s[k])
  {
    RStripParts(s);
    assert s[|RStrip(s)|..][k - |RStrip(s)|] == s[k];
  }

  // Applying a block twice is applying it once exactly when the block has one end marker and the
  // document no dangling start marker.
  lemma {:induction false} IdempotentIff(content: string, block: string, start: string, end: string)
    requires IsBlock(block, start, end)
    ensures var once := ApplyBlock(content, block, start, end);
            ApplyBlock(once, block, start, end) == once <==> OneEnd(block, end) && !Dangling(content, start, end)
  {
    hide *;
    if Dangling(content, start, end) {
      DanglingDiffers(content, block, start, end);
    } else if OneEnd(block, end) {
      CleanSettles(content, block, start, end);
    } else {
      UncleanNeverSettles(content, block, start, end);
    }
  }

  // With a dangling start marker, the second application swallows the text from that marker up to
  // the note the first one added.
  lemma {:induction false} DanglingLosesText(content: string, block: string, start: string, end: string)
    requires IsBlock(block, start, end) && OneEnd(block, end) && Dangling(content, start, end)
    ensures var once := ApplyBlock(content, block, start, end);
            && ApplyBlock(once, block, start, end) == Doc(RStrip(content[..Find(content, start, 0).value]), block, "")
            && |ApplyBlock(once, block, start, end)| < |once|
  {
    DanglingFinds(content, block, start, end);
    assert Find(block, end, 0).value == |block| - |end|;
    hide *;
    var s, prefix := Find(content, start, 0).value, RStrip(content);
    var d := Doc(prefix, block, "");
    AppendsNote(content, block, start, end);
    ReplacesNote(d, block, start, end, s, Lead(prefix) + |block| - |end|);
    NothingBehind(prefix, block, |end|);
    MarkerNotEmpty(block, start, end);
    DocGrowsInFront(RStrip(content[..s]), prefix, block);
  }

  lemma {:induction false} MarkerNotEmpty(block: string, start: string, end: string)
    requires IsBlock(block, start, end)
    ensures start != "" && |end| <= |block| && block != "" && !IsSpace(block[0])
  {
    assert block[0 + 0] == start[0];
  }

  lemma {:induction false} NothingBehind(prefix: string, block: string, n: nat)
    requires n <= |block|
    ensures Lead(prefix) + |block| <= |Doc(prefix, block, "")|
    ensures RStrip(LStripNewlines(Doc(prefix, block, "")[Lead(prefix) + |block| - n + n..])) == ""
  {
    DocParts(prefix, block, "");
    StripTail("");
  }

  lemma {:induction false} DocGrowsInFront(shorter: string, prefix: string, block: string)
    requires |shorter| < |prefix|
    ensures |Doc(shorter, block, "")| < |Doc(prefix, block, "")|
  {
  }

  // The second application finds the dangling start, and the first end marker of the added note.
  lemma {:induction false} DanglingFinds(content: string, block: string, start: string, end: string)
    requires IsBlock(block, start, end) && Dangling(content, start, end)
    ensures Find(content, start, 0).Some? && Find(block, end, 0).Some?
    ensures var s, prefix := Find(content, start, 0).value, RStrip(content);
            var d := Doc(prefix, block, "");
            && s + |start| <= |prefix|
            && Find(d, start, 0) == Some(s) && Find(d, end, s) == Some(Lead(prefix) + Find(block, end, 0).value)
            && s <= |d| && d[..s] == content[..s]
  {
    var s, prefix := Find(content, start, 0).value, RStrip(content);
    var d := Doc(prefix, block, "");
    MarkerSurvivesStrip(content, start, s);
    RStripParts(content);
    DocPrefix(prefix, block, "");
    assert d[..s] == d[..|prefix|][..s] == content[..s];
    SameOccurrences(d, content, start, |prefix|);
    forall k: nat | k < s
      ensures !OccursAt(d, start, k)
    {
      assert !OccursAt(content, start, k);
    }
    FoundAt(d, start, 0, s);
    NoEndInPrefix(content, end, s);
    EndOfDoc(prefix, block, "", start, end, s);
  }

  lemma {:induction false} DocPrefix(prefix: string, block: string, suffix: string)
    ensures |prefix| <= |Doc(prefix, block, suffix)| && Doc(prefix, block, suffix)[..|prefix|] == prefix
  {
  }

  // Texts with a common prefix have the same occurrences in it.
  lemma {:induction false} SameOccurrences(a: string, b: string, m: string, n: nat)
    requires n <= |a| && n <= |b| && a[..n] == b[..n]
    ensures forall k: nat :: k + |m| <= n ==> (OccursAt(a, m, k) <==> OccursAt(b, m, k))
  {
    forall k: nat | k + |m| <= n
      ensures OccursAt(a, m, k) <==> OccursAt(b, m, k)
    {
      PrefixOccurs(a, m, n, k);
      PrefixOccurs(b, m, n, k);
    }
  }

  lemma {:induction false} NoEndInPrefix(content: string, end: string, s: nat)
    requires Find(content, end, s) == None
    ensures forall j: nat :: s <= j ==> !OccursAt(RStrip(content), end, j)
  {
    var prefix := RStrip(content);
    RStripParts(content);
    forall j: nat | s <= j
      ensures !OccursAt(prefix, end, j)
    {
      assert !OccursAt(content, end, j);
      if j + |end| <= |prefix| { PrefixOccurs(content, end, |prefix|, j); }
    }
  }

  lemma {:induction false} MarkerSurvivesStrip(content: string, m: string, s: nat)
    requires IsMarker(m) && OccursAt(content, m, s)
    ensures OccursAt(RStrip(content), m, s)
  {
    var r := RStrip(content);
    assert content[s + (|m| - 1)] == m[|m| - 1];
    RStripParts(content);
    assert forall k :: |r| <= k < |content| ==> IsSpace(content[k]) by {
      forall k | |r| <= k < |content| ensures IsSpace(content[k]) { assert content[k] == content[|r|..][k - |r|]; }
    }
    PrefixOccurs(content, m, |r|, s);
  }

  // ---- When the block itself holds another end marker -----------------------------------------

  lemma {:induction false} LStripNewlinesConcat(t: string, tail: string)
    requires t != "" && t[|t| - 1] != '\n'
    ensures LStripNewlines(t) != "" && LStripNewlines(t + tail) == LStripNewlines(t) + tail
    ensures LStripNewlines(t)[|LStripNewlines(t)| - 1] == t[|t| - 1]
  {
    if t[0] == '\n' {
      LStripNewlinesConcat(t[1..], tail);
      assert (t + tail)[1..] == t[1..] + tail;
    }
  }

  lemma {:induction false} LongerSuffix(t: string, suffix: string)
    requires t != "" && !IsSpace(t[|t| - 1]) && IsRStripped(suffix)
    ensures |RStrip(LStripNewlines(t + ((if suffix != "" then "\n\n" + suffix else "") + "\n")))| > |suffix|
  {
    var tail := (if suffix != "" then "\n\n" + suffix else "") + "\n";
    LStripNewlinesConcat(t, tail);
    var t' := LStripNewlines(t);
    if suffix != "" {
      assert t' + tail == (t' + "\n\n" + suffix) + "\n";
      RStripAppend(t' + "\n\n" + suffix, "\n");
    } else {
      RStripAppend(t', "\n");
    }
  }

  // Then the document grows with every application.
  lemma {:induction false} SecondEndGrows(prefix: string, block: string, suffix: string, start: string, end: string)
    requires IsBlock(block, start, end) && !OneEnd(block, end)
    requires IsRStripped(prefix) && NoStart(prefix, start) && IsRStripped(suffix)
    ensures |ApplyBlock(Doc(prefix, block, suffix), block, start, end)| > |Doc(prefix, block, suffix)|
  {
    hide *;
    EarlyEnd(block, start, end);
    var c := Find(block, end, 0).value + |end|;
    AfterEarlyEnd(prefix, block, suffix, c);
    EarlyReplace(prefix, block, suffix, start, end, Lead(prefix) + c);
    DocGrows(prefix, block, suffix, RStrip(LStripNewlines(Doc(prefix, block, suffix)[Lead(prefix) + c..])));
  }

  lemma {:induction false} EarlyReplace(prefix: string, block: string, suffix: string, start: string, end: string,
        cut: nat)
    requires IsBlock(block, start, end) && IsRStripped(prefix) && NoStart(prefix, start)
    requires Find(block, end, 0).Some?
               && cut == Lead(prefix) + Find(block, end, 0).value + |end| <= |Doc(prefix, block, suffix)|
    ensures ApplyBlock(Doc(prefix, block, suffix), block, start, end)
         == Doc(prefix, block, RStrip(LStripNewlines(Doc(prefix, block, suffix)[cut..])))
  {
    hide *;
    StartOfDoc(prefix, block, suffix, start, end);
    EndInBlock(prefix, block, suffix, start, end);
    ReplacesNote(Doc(prefix, block, suffix), block, start, end, Lead(prefix), cut - |end|);
    BeforeBlock(prefix, block, suffix);
  }

  lemma {:induction false} BeforeBlock(prefix: string, block: string, suffix: string)
    requires IsRStripped(prefix)
    ensures Lead(prefix) <= |Doc(prefix, block, suffix)| && RStrip(Doc(prefix, block, suffix)[..Lead(prefix)]) == prefix
  {
    DocParts(prefix, block, suffix);
    StripLead(prefix);
  }

  lemma {:induction false} DocGrows(prefix: string, block: string, suffix: string, longer: string)
    requires |longer| > |suffix|
    ensures |Doc(prefix, block, longer)| > |Doc(prefix, block, suffix)|
  {
  }

  // What is left behind the block's first end marker is longer than the suffix.
  lemma {:induction false} AfterEarlyEnd(prefix: string, block: string, suffix: string, c: nat)
    requires c < |block| && !IsSpace(block[|block| - 1]) && IsRStripped(suffix)
    ensures Lead(prefix) + c <= |Doc(prefix, block, suffix)|
    ensures |RStrip(LStripNewlines(Doc(prefix, block, suffix)[Lead(prefix) + c..]))| > |suffix|
  {
    BehindCut(prefix, block, suffix, c);
    assert block[c..][|block| - c - 1] == block[|block| - 1];
    LongerSuffix(block[c..], suffix);
  }

  lemma {:induction false} BehindCut(prefix: string, block: string, suffix: string, c: nat)
    requires c <= |block|
    ensures Lead(prefix) + c <= |Doc(prefix, block, suffix)|
    ensures Doc(prefix, block, suffix)[Lead(prefix) + c..]
              == block[c..] + ((if suffix != "" then "\n\n" + suffix else "") + "\n")
  {
    var d, n := Doc(prefix, block, suffix), Lead(prefix);
    var lead, tail := (if prefix != "" then prefix + "\n\n" else ""), (if suffix != "" then "\n\n" + suffix else "")
        + "\n";
    assert d == lead + block + tail;
  }

  lemma {:induction false} EarlyEnd(block: string, start: string, end: string)
    requires IsBlock(block, start, end) && !OneEnd(block, end)
    ensures Find(block, end, 0).Some? && Find(block, end, 0).value < |block| - |end|
    ensures !IsSpace(block[|block| - 1])
  {
    assert OccursAt(block, end, |block| - |end|);
    assert block[|block| - |end| + (|end| - 1)] == end[|end| - 1];
  }

  lemma {:induction false} UncleanNeverSettles(content: string, block: string, start: string, end: string)
    requires IsBlock(block, start, end) && !OneEnd(block, end) && !Dangling(content, start, end)
    ensures var once := ApplyBlock(content, block, start, end);
            |ApplyBlock(once, block, start, end)| > |once|
  {
    var s := Find(content, start, 0);
    if s.None? {
      AppendsNote(content, block, start, end);
      assert content[..|content|] == content;
      NoStartBefore(content, start, |content|);
      SecondEndGrows(RStrip(content), block, "", start, end);
    } else {
      var e := Find(content, end, s.value);
      ReplacesNote(content, block, start, end, s.value, e.value);
      NoStartBefore(content, start, s.value);
      SecondEndGrows(RStrip(content[..s.value]), block, RStrip(LStripNewlines(content[e.value + |end|..])), start, end);
    }
  }

  // ---- The note of a plan --------------------------------------------------------------------

  // Where line `i` of the joined lines begins.
  function Offset(lines: seq<string>, i: nat): nat
    requires i < |lines|
  {
    if i == 0 then 0 else |Join(lines[..i])| + 1
  }

  lemma {:induction false} LineOccurs(lines: seq<string>, i: nat, m: string, j: nat)
    requires i < |lines| && j + |m| <= |lines[i]|
    ensures OccursAt(Join(lines), m, Offset(lines, i) + j) <==> OccursAt(lines[i], m, j)
  {
    hide *;
    var before, after := WindowIsSubstring(lines, i, 1);
    JoinOne(lines, i);
    OffsetIsBefore(lines, i);
    var s, n := Join(lines), |before|;
    Middle(before, lines[i], after);
    OccursInPart(s, m, n + j, n, n + |lines[i]|);
  }

  lemma {:induction false} OffsetIsBefore(lines: seq<string>, i: nat)
    requires i < |lines|
    ensures |BeforeWindow(lines, i)| == Offset(lines, i)
  {
  }

  lemma {:induction false} JoinOne(lines: seq<string>, i: nat)
    requires i < |lines|
    ensures Join(lines[i..i + 1]) == lines[i]
  {
    assert lines[i..i + 1] == [lines[i]];
  }

  lemma {:induction false} Middle(a: string, b: string, c: string)
    ensures (a + b + c)[|a|..|a| + |b|] == b
  {
  }

  // A marker in the text is in one of its lines.
  lemma {:induction false} OccursInLine(lines: seq<string>, m: string, k: nat) returns (i: nat, j: nat)
    requires lines != [] && IsMarker(m) && OccursAt(Join(lines), m, k)
    ensures i < |lines| && j + |m| <= |lines[i]| && k == Offset(lines, i) + j && OccursAt(lines[i], m, j)
    decreases |lines|
  {
    var s := Join(lines);
    if |lines| == 1 {
      i, j := 0, k;
    } else if k + |m| <= |lines[0]| {
      i, j := 0, k;
      LineOccurs(lines, 0, m, k);
    } else {
      if k <= |lines[0]| { NotAcross(s, m, k, |lines[0]|); }
      var n := |lines[0]| + 1;
      assert s[n..] == Join(lines[1..]) && s[n..|s|] == s[n..];
      OccursInPart(s, m, k, n, |s|);
      i, j := OccursInLine(lines[1..], m, k - n);
      i := i + 1;
      assert lines[1..][..i - 1] == lines[1..i];
      if i > 1 {
        assert lines[..i] == [lines[0]] + lines[1..i];
        JoinConcat([lines[0]], lines[1..i]);
      } else {
        assert lines[..1] == [lines[0]];
      }
    }
  }

  ghost predicate HasOccurrence(s: string, m: string) {
    exists k: nat :: OccursAt(s, m, k)
  }

  ghost predicate PlainId(id: string) {
    '<' !in id && '\n' !in id
  }

  // No section carries the plan's end marker.
  ghost predicate CleanSections(id: string, s: Sections) {
    && !HasOccurrence(Section(s.goal), EndMarker(id)) && !HasOccurrence(Section(s.evidence), EndMarker(id))
    && !HasOccurrence(Section(s.entropy), EndMarker(id)) && !HasOccurrence(Section(s.verification), EndMarker(id))
  }

  lemma {:induction false} MarkersAreMarkers(id: string)
    requires PlainId(id)
    ensures IsMarker(StartMarker(id)) && IsMarker(EndMarker(id)) && EndMarker(id)[0] == '<'
  {
    var s, e := StartMarker(id), EndMarker(id);
    assert s[|s| - 1] == '>' && e[|e| - 1] == '>';
  }

  lemma {:induction false} NoteIsBlock(id: string, s: Sections)
    requires PlainId(id)
    ensures IsBlock(Block(id, s), StartMarker(id), EndMarker(id))
    ensures Offset(BlockLines(id, s), 9) == |Block(id, s)| - |EndMarker(id)|
  {
    var lines, b := BlockLines(id, s), Block(id, s);
    MarkersAreMarkers(id);
    LineOccurs(lines, 0, StartMarker(id), 0);
    LineOccurs(lines, 9, EndMarker(id), 0);
    var before, after := WindowIsSubstring(lines, 9, 1);
    assert lines[9..10] == [EndMarker(id)] && after == "";
    assert OccursAt(b, EndMarker(id), Offset(lines, 9));
    assert OccursAt(b, StartMarker(id), 0);
    var first, rest := WindowIsSubstring(lines, 0, 9);
    LineOccurs(lines[..9], 0, StartMarker(id), 0);
  }

  // Text behind a label without '<' holds the end marker exactly when the labelled line does.
  lemma {:induction false} LabelledLine(head: string, text: string, m: string)
    requires m != "" && m[0] == '<' && '<' !in head
    ensures HasOccurrence(head + text, m) <==> HasOccurrence(text, m)
  {
    var line := head + text;
    if k: nat :| OccursAt(line, m, k) {
      assert line[k + 0] == m[0];
      assert k >= |head|;
      OccursInPart(line, m, k, |head|, |line|);
      assert line[|head|..|line|] == text;
    }
    if k: nat :| OccursAt(text, m, k) {
      assert line[|head|..|line|] == text;
      OccursInPart(line, m, |head| + k, |head|, |line|);
    }
  }

  lemma {:induction false} NoMarkerWithoutBracket(line: string, m: string)
    requires m != "" && m[0] == '<' && '<' !in line
    ensures !HasOccurrence(line, m)
  {
    forall k: nat
      ensures !OccursAt(line, m, k)
    {
      if k + |m| <= |line| { assert line[k + 0] in line; assert m[0] == '<'; }
    }
  }

  lemma {:induction false} StartLineHasNoEnd(id: string)
    requires PlainId(id)
    ensures !HasOccurrence(StartMarker(id), EndMarker(id))
  {
    var s, e := StartMarker(id), EndMarker(id);
    assert |s| == |e| + 2;
    forall k: nat
      ensures !OccursAt(s, e, k)
    {
      assert s[1] == '!' && s[2] == '-' && s[31] == 's';
      assert e[0] == '<' && e[31] == 'e';
    }
  }

  lemma {:induction false} IdLine(id: string)
    requires PlainId(id)
    ensures '<' !in "Gardener opened this maintenance PR from plan `" + id + "`."
  {
    var first, second := "Gardener opened this mai", "ntenance PR from plan `";
    assert first + second == "Gardener opened this maintenance PR from plan `";
    assert '<' !in first && '<' !in second && '<' !in "`.";
  }

  // Which lines of the block hold the end marker.
  lemma {:induction false} LinesWithEnd(id: string, s: Sections)
    requires PlainId(id)
    ensures CleanSections(id, s) <==> forall i :: 0 <= i < 9 ==> !HasOccurrence(BlockLines(id, s)[i], EndMarker(id))
  {
    var lines, e := BlockLines(id, s), EndMarker(id);
    MarkersAreMarkers(id);
    StartLineHasNoEnd(id);
    NoMarkerWithoutBracket(lines[1], e);
    NoMarkerWithoutBracket(lines[2], e);
    assert '<' !in lines[3] by { IdLine(id); }
    NoMarkerWithoutBracket(lines[3], e);
    NoMarkerWithoutBracket(lines[4], e);
    LabelledLine("- Goal: ", Section(s.goal), e);
    LabelledLine("- Evidence: ", Section(s.evidence), e);
    LabelledLine("- Entropy impact: ", Section(s.entropy), e);
    LabelledLine("- Verification: ", Section(s.verification), e);
    assert lines[5] == "- Goal: " + Section(s.goal) && lines[6] == "- Evidence: " + Section(s.evidence);
    assert lines[7] == "- Entropy impact: " + Section(s.entropy)
        && lines[8] == "- Verification: " + Section(s.verification);
  }

  lemma {:induction false} OnlyLastLine(id: string, s: Sections, k: nat)
    requires PlainId(id) && CleanSections(id, s) && OccursAt(Block(id, s), EndMarker(id), k)
    ensures k == |Block(id, s)| - |EndMarker(id)|
  {
    NoteIsBlock(id, s);
    LinesWithEnd(id, s);
    var i, j := OccursInLine(BlockLines(id, s), EndMarker(id), k);
    assert HasOccurrence(BlockLines(id, s)[i], EndMarker(id));
    assert i == 9;
  }

  // The block has one end marker exactly when no section carries it.
  lemma {:induction false} OneEndIffClean(id: string, s: Sections)
    requires PlainId(id)
    ensures OneEnd(Block(id, s), EndMarker(id)) <==> CleanSections(id, s)
  {
    var lines, b, e := BlockLines(id, s), Block(id, s), EndMarker(id);
    NoteIsBlock(id, s);
    LinesWithEnd(id, s);
    if CleanSections(id, s) {
      forall k: nat | k < |b| - |e|
        ensures !OccursAt(b, e, k)
      {
        if OccursAt(b, e, k) { OnlyLastLine(id, s, k); }
      }
      FoundAt(b, e, 0, |b| - |e|);
    }
    if i: nat :| i < 9 && HasOccurrence(lines[i], e) { EndInEarlierLine(id, s, i); }
  }

  lemma {:induction false} EndInEarlierLine(id: string, s: Sections, i: nat)
    requires PlainId(id) && i < 9 && HasOccurrence(BlockLines(id, s)[i], EndMarker(id))
    ensures !OneEnd(Block(id, s), EndMarker(id))
  {
    var lines, e := BlockLines(id, s), EndMarker(id);
    NoteIsBlock(id, s);
    var j: nat :| OccursAt(lines[i], e, j);
    LineOccurs(lines, i, e, j);
    OffsetBefore(lines, i, j + |e|);
  }

  lemma {:induction false} OffsetBefore(lines: seq<string>, i: nat, n: nat)
    requires |lines| == 10 && i < 9 && n <= |lines[i]|
    ensures Offset(lines, i) + n < Offset(lines, 9)
  {
    var before, after := WindowIsSubstring(lines[..9], i, 1);
    assert lines[..9][i..i + 1] == [lines[i]] && lines[..9][..i] == lines[..i];
  }

  // The whole story for a plan: applying its note twice equals applying it once exactly when no
  // section carries the plan's end marker and the document has no dangling start marker.
  lemma {:induction false} NoteIdempotentIff(content: string, id: string, s: Sections)
    requires PlainId(id)
    ensures var once := ApplyNote(content, id, s);
            ApplyNote(once, id, s) == once
            <==> CleanSections(id, s) && !Dangling(content, StartMarker(id), EndMarker(id))
  {
    NoteIsBlock(id, s);
    OneEndIffClean(id, s);
    hide CleanSections, Dangling, IsBlock, OneEnd, ApplyBlock, Block;
    IdempotentIff(content, Block(id, s), StartMarker(id), EndMarker(id));
  }

  // ---- A document that loses its text ------------------------------------------------------------

  const NOTHING_SUPPLIED := Sections(None, None, None, None)

  function Broken(): string {
    StartMarker("1") + "\nKeep me."
  }

  // A document whose start marker lost its end marker: the first application adds the note behind
  // the text, the second leaves nothing but the note.
  lemma {:induction false} DanglingExample()
    ensures Dangling(Broken(), StartMarker("1"), EndMarker("1")) && CleanSections("1", NOTHING_SUPPLIED)
    ensures var once := ApplyNote(Broken(), "1", NOTHING_SUPPLIED);
            && once == Broken() + "\n\n" + Block("1", NOTHING_SUPPLIED) + "\n"
            && ApplyNote(once, "1", NOTHING_SUPPLIED) == Block("1", NOTHING_SUPPLIED) + "\n"
  {
    var c, b, start, end := Broken(), Block("1", NOTHING_SUPPLIED), StartMarker("1"), EndMarker("1");
    hide *;
    BrokenDangles();
    NothingSuppliedIsClean();
    NoteIsBlock("1", NOTHING_SUPPLIED);
    OneEndIffClean("1", NOTHING_SUPPLIED);
    BrokenIsStripped();
    AppendsNote(c, b, start, end);
    DanglingLosesText(c, b, start, end);
    NoteIsApplied(c, "1", NOTHING_SUPPLIED);
    NoteIsApplied(ApplyNote(c, "1", NOTHING_SUPPLIED), "1", NOTHING_SUPPLIED);
    DocEndsInNote(c, b);
    DocEndsInNote("", b);
  }

  lemma {:induction false} NoteIsApplied(content: string, id: string, s: Sections)
    ensures ApplyNote(content, id, s) == ApplyBlock(content, Block(id, s), StartMarker(id), EndMarker(id))
  {
  }

  lemma {:induction false} DocEndsInNote(prefix: string, block: string)
    ensures Doc(prefix, block, "") == if prefix != "" then prefix + "\n\n" + block + "\n" else block + "\n"
  {
  }

  lemma {:induction false} BrokenIsStripped()
    ensures RStrip(Broken()) == Broken() && Broken() != "" && Broken()[..0] == "" && RStrip("") == ""
  {
    assert Broken()[|Broken()| - 1] == '.';
  }

  lemma {:induction false} BrokenDangles()
    ensures Dangling(Broken(), StartMarker("1"), EndMarker("1"))
    ensures Find(Broken(), StartMarker("1"), 0) == Some(0)
  {
    var first, rest, e := StartMarker("1"), "Keep me.", EndMarker("1");
    var lines := [first, rest];
    assert lines[1..] == [rest] && Join(lines) == Broken();
    LineOccurs(lines, 0, first, 0);
    MarkersAreMarkers("1");
    StartLineHasNoEnd("1");
    assert '<' !in rest;
    NoMarkerWithoutBracket(rest, e);
    FoundAt(Broken(), first, 0, 0);
    hide StartMarker, EndMarker, Broken;
    forall k: nat
      ensures !OccursAt(Broken(), e, k)
    {
      if OccursAt(Broken(), e, k) {
        var i, j := OccursInLine(lines, e, k);
      }
    }
  }

  lemma {:induction false} NothingSuppliedIsClean()
    ensures CleanSections("1", NOTHING_SUPPLIED)
  {
    var e := EndMarker("1");
    MarkersAreMarkers("1");
    assert Section(None) == "Not supplied." && '<' !in "Not supplied.";
    hide EndMarker;
    NoMarkerWithoutBracket("Not supplied.", e);
  }
}
