/** Applying SEARCH/REPLACE blocks to a file. */
module EditBlocks {
  // One block after the other: a block that matches nothing, or that would leave a Python file
  // unparsable, is skipped.

  import opened Options
  import opened Text
  import opened EditMatching

  datatype Edit = Edit(search: string, replacement: string)

  // What a file is edited with: is it Python, does a text parse as Python, how alike are two texts.
  datatype Setting = Setting(python: bool, parses: string -> bool, ratio: Similarity)

  // Put `with` in the place of the first occurrence of `sub`.
  function ReplaceFirst(s: string, sub: string, with: string): string {
    match Find(s, sub, 0)
    case None => s
    case Some(k) => s[..k] + with + s[k + |sub|..]
  }

  // The text after one block; None when the block is skipped.
  ghost function Step(setting: Setting, text: string, edit: Edit): Option<string> {
    if Strip(edit.search) == "" then None
    else
      match Matched(setting.ratio, text, edit.search)
      case None => None
      case Some(m) =>
        var candidate := ReplaceFirst(text, m, edit.replacement);
        if setting.python && !setting.parses(candidate) then None else Some(candidate)
  }

  // The text after the first blocks, and how many of them were applied.
  ghost function ApplyAll(setting: Setting, content: string, edits: seq<Edit>): (string, nat) {
    if edits == [] then (content, 0)
    else
      var (text, applied) := ApplyAll(setting, content, edits[..|edits| - 1]);
      match Step(setting, text, edits[|edits| - 1])
      case None => (text, applied)
      case Some(next) => (next, applied + 1)
  }

  // The first occurrence of `sub` in the text has given way to `with`.
  ghost predicate Substituted(text: string, sub: string, with: string, next: string) {
    exists k: nat {:trigger OccursAt(text, sub, k)} ::
      && OccursAt(text, sub, k)
      && (forall j: nat {:trigger OccursAt(text, sub, j)} :: j < k ==> !OccursAt(text, sub, j))
      && next == text[..k] + with + text[k + |sub|..]
  }

  // The block takes the text to the next one.
  ghost predicate Replaces(setting: Setting, text: string, edit: Edit, next: string) {
    && Strip(edit.search) != "" && Matched(setting.ratio, text, edit.search).Some?
    && Substituted(text, Matched(setting.ratio, text, edit.search).value, edit.replacement, next)
    && (setting.python ==> setting.parses(next))
  }

  // SEARCH is blank or matches nothing in the text, or the edited text would not parse.
  ghost predicate Skips(setting: Setting, text: string, edit: Edit) {
    || Strip(edit.search) == "" || Matched(setting.ratio, text, edit.search) == None
    || (setting.python
        && exists next: string {:trigger setting.parses(next)} ::
             && Substituted(text, Matched(setting.ratio, text, edit.search).value, edit.replacement, next)
             && !setting.parses(next))
  }

  // The texts the file goes through, from the original on: each block takes its text to the next
  // one, or leaves it.
  ghost predicate Chain(setting: Setting, content: string, edits: seq<Edit>, texts: seq<string>) {
    && |texts| == |edits| + 1 && texts[0] == content
    && forall i {:trigger edits[i]} :: 0 <= i < |edits| ==>
         if Skips(setting, texts[i], edits[i]) then texts[i + 1] == texts[i]
         else Replaces(setting, texts[i], edits[i], texts[i + 1])
  }

  // How many blocks of the chain replace something.
  ghost function Replacements(setting: Setting, edits: seq<Edit>, texts: seq<string>): nat
    requires |texts| == |edits| + 1
  {
    if edits == [] then 0
    else
      var n := |edits| - 1;
      Replacements(setting, edits[..n], texts[..n + 1]) + if Skips(setting, texts[n], edits[n]) then 0 else 1
  }

  // The answer is the end of a chain; the file is refused when the chain replaces nothing.
  ghost predicate EndsChain(setting: Setting, content: string, edits: seq<Edit>, texts: seq<string>,
                            r: Option<string>) {
    && Chain(setting, content, edits, texts)
    && r == if Replacements(setting, edits, texts) == 0 then None else Some(texts[|edits|])
  }

  method ApplyEditBlocks(setting: Setting, content: string, edits: seq<Edit>) returns (r: Option<string>)
    ensures r == if ApplyAll(setting, content, edits).1 == 0 then None else Some(ApplyAll(setting, content, edits).0)
    ensures exists texts {:trigger EndsChain(setting, content, edits, texts, r)} ::
              EndsChain(setting, content, edits, texts, r)
  {
    var updated, applied, i := content, 0, 0;
    hide Strip, Matched, ReplaceFirst;
    while i < |edits|
      invariant 0 <= i <= |edits| && (updated, applied) == ApplyAll(setting, content, edits[..i])
    {
      assert edits[..i + 1][..i] == edits[..i];
      var edit := edits[i];
      i := i + 1;
      if Strip(edit.search) == "" { continue; }
      var matched := FindMatch(setting.ratio, updated, edit.search);
      if matched == None { continue; }
      var candidate := ReplaceFirst(updated, matched.value, edit.replacement);
      if setting.python && !setting.parses(candidate) { continue; }
      updated, applied := candidate, applied + 1;
    }
    assert edits[..i] == edits;
    r := if applied == 0 then None else Some(updated);
    hide Step, ApplyAll, Chain;
    ghost var texts := ChainOfTexts(setting, content, edits);
    assert EndsChain(setting, content, edits, texts, r);
  }

  // A block takes the text where a step does, and is skipped where a step is.
  lemma {:induction false} StepReplaces(setting: Setting, text: string, edit: Edit)
    ensures Skips(setting, text, edit) <==> Step(setting, text, edit) == None
    ensures forall next {:trigger Replaces(setting, text, edit, next)} ::
              Replaces(setting, text, edit, next) <==> Step(setting, text, edit) == Some(next)
  {
    if Strip(edit.search) != "" && Matched(setting.ratio, text, edit.search).Some? {
      MatchedOccurs(setting.ratio, text, edit.search);
      OnlySubstitute(text, Matched(setting.ratio, text, edit.search).value, edit.replacement);
    }
    hide Matched, Strip, ReplaceFirst, Substituted;
  }

  lemma {:induction false} OnlySubstitute(text: string, sub: string, with: string)
    requires Find(text, sub, 0).Some?
    ensures forall next {:trigger Substituted(text, sub, with, next)} ::
              Substituted(text, sub, with, next) <==> next == ReplaceFirst(text, sub, with)
  {
  }

  // The texts the fold goes through.
  lemma {:induction false} ChainOfTexts(setting: Setting, content: string, edits: seq<Edit>)
    returns (texts: seq<string>)
    ensures Chain(setting, content, edits, texts)
    ensures ApplyAll(setting, content, edits) == (texts[|edits|], Replacements(setting, edits, texts))
  {
    hide Step, Skips, Replaces;
    if edits == [] {
      texts := [content];
    } else {
      var n := |edits| - 1;
      var before := ChainOfTexts(setting, content, edits[..n]);
      var next := Step(setting, before[n], edits[n]);
      texts := before + [if next == None then before[n] else next.value];
      StepReplaces(setting, before[n], edits[n]);
      assert texts[..n + 1] == before;
      hide ApplyAll, Replacements;
      ChainGrows(setting, content, edits, texts);
    }
  }

  lemma {:induction false} ChainGrows(setting: Setting, content: string, edits: seq<Edit>, texts: seq<string>)
    requires edits != [] && |texts| == |edits| + 1
    requires Chain(setting, content, edits[..|edits| - 1], texts[..|edits|])
    requires var n := |edits| - 1;
             if Skips(setting, texts[n], edits[n]) then texts[n + 1] == texts[n]
             else Replaces(setting, texts[n], edits[n], texts[n + 1])
    ensures Chain(setting, content, edits, texts)
  {
    hide Skips, Replaces;
    var init := edits[..|edits| - 1];
    forall i | 0 <= i < |edits|
      ensures if Skips(setting, texts[i], edits[i]) then texts[i + 1] == texts[i]
              else Replaces(setting, texts[i], edits[i], texts[i + 1])
    {
      if i < |init| { assert init[i] == edits[i]; }
    }
  }

  // More blocks are applied to what the first ones gave.
  lemma {:induction false} BlocksCompose(setting: Setting, content: string, a: seq<Edit>, b: seq<Edit>)
    ensures var (text, applied) := ApplyAll(setting, content, a);
            ApplyAll(setting, content, a + b)
            == (ApplyAll(setting, text, b).0, applied + ApplyAll(setting, text, b).1)
  {
    hide Step;
    if b == [] {
      assert a + b == a;
    } else {
      var n := |b| - 1;
      BlocksCompose(setting, content, a, b[..n]);
      assert (a + b)[..|a + b| - 1] == a + b[..n] && (a + b)[|a + b| - 1] == b[n];
    }
  }

  // No block applies to this text.
  ghost predicate NoneApplies(setting: Setting, text: string, edits: seq<Edit>) {
    forall i {:trigger edits[i]} :: 0 <= i < |edits| ==> Step(setting, text, edits[i]) == None
  }

  // The file is refused exactly when no single block would change it on its own.
  lemma {:induction false} RefusedIffNoneApplies(setting: Setting, content: string, edits: seq<Edit>)
    ensures ApplyAll(setting, content, edits).1 == 0 <==> NoneApplies(setting, content, edits)
    ensures ApplyAll(setting, content, edits).1 == 0 ==> ApplyAll(setting, content, edits).0 == content
  {
    hide Step;
    if edits != [] {
      var init := edits[..|edits| - 1];
      RefusedIffNoneApplies(setting, content, init);
      assert edits == init + [edits[|edits| - 1]];
      if NoneApplies(setting, content, edits) {
        forall i | 0 <= i < |init|
          ensures Step(setting, content, init[i]) == None
        {
          assert init[i] == edits[i];
        }
      }
    }
  }

  // Every accepted state of a Python file parses.
  lemma {:induction false} PythonKeepsParsing(setting: Setting, content: string, edits: seq<Edit>)
    requires setting.python
    ensures ApplyAll(setting, content, edits).1 > 0 ==> setting.parses(ApplyAll(setting, content, edits).0)
  {
    if edits != [] {
      PythonKeepsParsing(setting, content, edits[..|edits| - 1]);
      hide Matched, Strip, ReplaceFirst;
    }
  }

  // An applied block replaces one stretch of the text, the first that reads like the match, and keeps the rest.
  lemma {:induction false} StepReplacesOnce(setting: Setting, text: string, edit: Edit)
    returns (before: string, found: string, after: string)
    requires Step(setting, text, edit).Some?
    ensures Matched(setting.ratio, text, edit.search) == Some(found)
    ensures text == before + found + after && Step(setting, text, edit) == Some(before + edit.replacement + after)
    ensures forall k: nat :: k < |before| ==> !OccursAt(text, found, k)
  {
    MatchedOccurs(setting.ratio, text, edit.search);
    hide Matched, Strip;
    found := Matched(setting.ratio, text, edit.search).value;
    var k := Find(text, found, 0).value;
    before, after := text[..k], text[k + |found|..];
    OccursSlice(text, found, k);
  }

  // ---- Where an edit lands ---------------------------------------------------------------------

  // One of the tiers picks the window of lines at `i`.
  ghost predicate Picked(ratio: Similarity, content: string, search: string, i: nat) {
    var lines, pattern := Split(content), Split(search);
    || FirstFit(TrailingSpace, lines, pattern, 0) == Some(i)
    || OnlyFit(Indentation, lines, pattern) == Some(i)
    || OnlyFit(Formatting, lines, pattern) == Some(i)
    || FuzzyFit(ratio, lines, pattern) == Some(i)
  }

  // The stretch begins where a line begins and ends where a line ends.
  predicate Aligned(s: string, from: nat, to: nat) {
    from <= to <= |s| && (from == 0 || s[from - 1] == '\n') && (to == |s| || s[to] == '\n')
  }

  // Before `at` the text occurs beginning or ending inside a line.
  ghost predicate CutsALine(content: string, w: string, at: nat) {
    exists k: nat {:trigger OccursAt(content, w, k)} ::
      k < at && OccursAt(content, w, k) && !Aligned(content, k, k + |w|)
  }

  // Whichever tier picked the window, the edit lands on it exactly when the window's text does not
  // occur earlier across the edge of a line; then the lines around the window stay as they are.  An
  // earlier occurrence made of whole lines would be another window that fits as well.
  lemma {:induction false} LandsOnWindowIff(ratio: Similarity, content: string, search: string, i: nat, with: string)
    requires Picked(ratio, content, search, i)
    ensures i + |Split(search)| <= |Split(content)|
    ensures var lines, n := Split(content), |Split(search)|;
            var w, at := Join(lines[i..i + n]), |BeforeWindow(lines, i)|;
            && (Find(content, w, 0) == Some(at) <==> !CutsALine(content, w, at))
            && (!CutsALine(content, w, at) ==>
                  ReplaceFirst(content, w, with) == BeforeWindow(lines, i) + with + AfterWindow(lines, i + n))
  {
    hide *;
    PickedInside(ratio, content, search, i);
    PatternNotEmpty(search);
    EarlierCuts(ratio, content, search, i);
    LandsUnlessEarlier(content, |Split(search)|, i, with);
  }

  ghost predicate OccursBefore(content: string, w: string, at: nat) {
    exists k: nat {:trigger OccursAt(content, w, k)} :: k < at && OccursAt(content, w, k)
  }

  lemma {:induction false} PatternNotEmpty(search: string)
    ensures |Split(search)| > 0
  {
  }

  // What occurs before the picked window cuts a line.
  lemma {:induction false} EarlierCuts(ratio: Similarity, content: string, search: string, i: nat)
    requires Picked(ratio, content, search, i) && i + |Split(search)| <= |Split(content)|
    ensures var w, at := Join(Split(content)[i..i + |Split(search)|]), |BeforeWindow(Split(content), i)|;
            OccursBefore(content, w, at) <==> CutsALine(content, w, at)
  {
    hide *;
    var w, at := Join(Split(content)[i..i + |Split(search)|]), |BeforeWindow(Split(content), i)|;
    forall k: nat | k < at && OccursAt(content, w, k)
      ensures !Aligned(content, k, k + |w|)
    {
      EarlierIsCut(ratio, content, search, i, k);
    }
    BeforeIffCut(content, w, at);
  }

  lemma {:induction false} EarlierIsCut(ratio: Similarity, content: string, search: string, i: nat, k: nat)
    requires Picked(ratio, content, search, i) && i + |Split(search)| <= |Split(content)|
    requires k < |BeforeWindow(Split(content), i)|
    requires OccursAt(content, Join(Split(content)[i..i + |Split(search)|]), k)
    ensures !Aligned(content, k, k + |Join(Split(content)[i..i + |Split(search)|])|)
  {
    hide *;
    PatternNotEmpty(search);
    if Aligned(content, k, k + |Join(Split(content)[i..i + |Split(search)|])|) {
      var j := AlignedIsWindow(content, |Split(search)|, i, k);
      PickedIsFirst(ratio, content, search, i, j);
    }
  }

  lemma {:induction false} BeforeIffCut(content: string, w: string, at: nat)
    requires forall k: nat {:trigger OccursAt(content, w, k)} ::
               k < at && OccursAt(content, w, k) ==> !Aligned(content, k, k + |w|)
    ensures OccursBefore(content, w, at) <==> CutsALine(content, w, at)
  {
    hide OccursAt, Aligned;
  }

  lemma {:induction false} PickedInside(ratio: Similarity, content: string, search: string, i: nat)
    requires Picked(ratio, content, search, i)
    ensures i + |Split(search)| <= |Split(content)|
  {
    hide FirstFit, OnlyFit, FuzzyFit, Split, Fits, ClearBest;
  }

  // The text of the window occurring at `k`, made of whole lines, is an earlier window with the same lines.
  lemma {:induction false} AlignedIsWindow(content: string, n: nat, i: nat, k: nat) returns (j: nat)
    requires 0 < n && i + n <= |Split(content)| && k < |BeforeWindow(Split(content), i)|
    requires var w := Join(Split(content)[i..i + n]); OccursAt(content, w, k) && Aligned(content, k, k + |w|)
    ensures j < i && Split(content)[j..j + n] == Split(content)[i..i + n]
  {
    var lines := Split(content);
    var window := lines[i..i + n];
    var w := Join(window);
    OccursParts(content, w, k);
    WindowLines(content, i, n);
    hide *;
    j := SplitAround(content, w, k);
    NotBefore(lines, i, j);
  }

  lemma {:induction false} OccursParts(s: string, w: string, k: nat)
    requires OccursAt(s, w, k)
    ensures k + |w| <= |s| && s == s[..k] + w + s[k + |w|..]
  {
    OccursSlice(s, w, k);
    hide OccursAt;
  }

  lemma {:induction false} WindowLines(content: string, i: nat, n: nat)
    requires 0 < n && i + n <= |Split(content)|
    ensures Split(Join(Split(content)[i..i + n])) == Split(content)[i..i + n]
  {
    JoinSplit(content);
    SplitJoin(Split(content)[i..i + n]);
    hide Split, Join;
  }

  lemma {:induction false} NotBefore(lines: seq<string>, i: nat, j: nat)
    requires i <= |lines| && j <= |lines| && |BeforeWindow(lines, j)| < |BeforeWindow(lines, i)|
    ensures j < i
  {
    hide BeforeWindow;
    if j >= i { BeforeGrows(lines, i, j); }
  }

  // Cut a text before and behind some whole lines: they are among its lines.
  lemma {:induction false} SplitAround(s: string, w: string, k: nat) returns (j: nat)
    requires k + |w| <= |s| && s == s[..k] + w + s[k + |w|..] && Aligned(s, k, k + |w|)
    ensures j + |Split(w)| <= |Split(s)| && Split(s)[j..j + |Split(w)|] == Split(w)
    ensures |BeforeWindow(Split(s), j)| == k
  {
    var e := k + |w|;
    var tail := s[k..];
    hide Split, Join;
    WholeLinesFirst(s, w, k, tail);
    if k > 0 {
      assert s == s[..k - 1] + "\n" + tail;
      SplitConcat(s[..k - 1], tail);
      j := |Split(s[..k - 1])|;
      assert Split(s)[..j] == Split(s[..k - 1]);
      JoinSplit(s[..k - 1]);
    } else {
      assert s == tail;
      j := 0;
    }
  }

  // Whole lines at the beginning of a text are its first lines.
  lemma {:induction false} WholeLinesFirst(s: string, w: string, k: nat, tail: string)
    requires k + |w| <= |s| && s == s[..k] + w + s[k + |w|..] && Aligned(s, k, k + |w|) && tail == s[k..]
    ensures |Split(w)| <= |Split(tail)| && Split(tail)[..|Split(w)|] == Split(w)
  {
    hide Split;
    var e := k + |w|;
    assert tail == w + s[e..];
    if e < |s| {
      assert s[e..] == [s[e]] + s[e + 1..];
      assert tail == w + "\n" + s[e + 1..];
      SplitConcat(w, s[e + 1..]);
    } else {
      assert tail == w;
    }
  }

  lemma {:induction false} ReplaceFound(s: string, sub: string, with: string, at: nat)
    requires at + |sub| <= |s|
    ensures Find(s, sub, 0) == Some(at) ==> ReplaceFirst(s, sub, with) == s[..at] + with + s[at + |sub|..]
  {
  }

  lemma {:induction false} AroundWindow(before: string, w: string, after: string)
    ensures (before + w + after)[..|before|] == before && (before + w + after)[|before| + |w|..] == after
  {
  }

  lemma {:induction false} BeforeGrows(lines: seq<string>, i: nat, j: nat)
    requires i <= j <= |lines|
    ensures |BeforeWindow(lines, i)| <= |BeforeWindow(lines, j)|
  {
    if 0 < i < j {
      assert lines[..j] == lines[..i] + lines[i..j];
      JoinConcat(lines[..i], lines[i..j]);
    }
  }

  // A window with the same lines as the picked one does not come before it.
  lemma {:induction false} PickedIsFirst(ratio: Similarity, content: string, search: string, i: nat, j: nat)
    requires Picked(ratio, content, search, i) && i + |Split(search)| <= |Split(content)| && j < i
    ensures Split(content)[j..j + |Split(search)|] != Split(content)[i..i + |Split(search)|]
  {
    hide *;
    var lines, pattern := Split(content), Split(search);
    if lines[j..j + |pattern|] == lines[i..i + |pattern|] {
      NotFirstFit(TrailingSpace, lines, pattern, i, j);
      NotOnlyFit(Indentation, lines, pattern, i, j);
      NotOnlyFit(Formatting, lines, pattern, i, j);
      NotFuzzyFit(ratio, lines, pattern, i, j);
      NotPicked(ratio, content, search, i);
    }
  }

  lemma {:induction false} NotPicked(ratio: Similarity, content: string, search: string, i: nat)
    requires FirstFit(TrailingSpace, Split(content), Split(search), 0) != Some(i)
    requires OnlyFit(Indentation, Split(content), Split(search)) != Some(i)
    requires OnlyFit(Formatting, Split(content), Split(search)) != Some(i)
    requires FuzzyFit(ratio, Split(content), Split(search)) != Some(i)
    ensures !Picked(ratio, content, search, i)
  {
    hide FirstFit, OnlyFit, FuzzyFit, Split;
  }

  lemma {:induction false} NotFuzzyFit(ratio: Similarity, lines: seq<string>, pattern: seq<string>, i: nat, j: nat)
    requires i + |pattern| <= |lines| && j < i && lines[j..j + |pattern|] == lines[i..i + |pattern|]
    ensures FuzzyFit(ratio, lines, pattern) != Some(i)
  {
    NotClearlyBest(ratio, lines, pattern, i, j);
    hide ClearBest, FuzzyFit;
  }

  lemma {:induction false} NotFirstFit(tier: Tier, lines: seq<string>, pattern: seq<string>, i: nat, j: nat)
    requires i + |pattern| <= |lines| && j < i && lines[j..j + |pattern|] == lines[i..i + |pattern|]
    ensures FirstFit(tier, lines, pattern, 0) != Some(i)
  {
    SameFit(tier, lines, pattern, i, j);
    hide Fits;
  }

  lemma {:induction false} NotOnlyFit(tier: Tier, lines: seq<string>, pattern: seq<string>, i: nat, j: nat)
    requires i + |pattern| <= |lines| && j < i && lines[j..j + |pattern|] == lines[i..i + |pattern|]
    ensures OnlyFit(tier, lines, pattern) != Some(i)
  {
    SameFit(tier, lines, pattern, i, j);
    OnlyFitIffOne(tier, lines, pattern, i);
    hide Fits, OnlyFit;
  }

  lemma {:induction false} SameFit(tier: Tier, lines: seq<string>, pattern: seq<string>, i: nat, j: nat)
    requires i + |pattern| <= |lines| && j + |pattern| <= |lines|
    requires lines[j..j + |pattern|] == lines[i..i + |pattern|]
    ensures Fits(tier, lines, pattern, i) <==> Fits(tier, lines, pattern, j)
  {
    hide Canon;
    assert forall m {:trigger pattern[m]} :: 0 <= m < |pattern| ==>
        lines[i + m] == lines[i..i + |pattern|][m] && lines[j + m] == lines[j..j + |pattern|][m];
  }

  lemma {:induction false} NotClearlyBest(ratio: Similarity, lines: seq<string>, pattern: seq<string>, i: nat, j: nat)
    requires i + |pattern| <= |lines| && j + |pattern| <= |lines| && i != j
    requires lines[j..j + |pattern|] == lines[i..i + |pattern|]
    ensures !ClearBest(ratio, lines, pattern, i)
  {
    assert Score(ratio, lines, pattern, i) == Score(ratio, lines, pattern, j);
  }

  lemma {:induction false} LandsUnlessEarlier(content: string, n: nat, i: nat, with: string)
    requires 0 < n && i + n <= |Split(content)|
    ensures var w, at := Join(Split(content)[i..i + n]), |BeforeWindow(Split(content), i)|;
            && (Find(content, w, 0) == Some(at) <==> !OccursBefore(content, w, at))
            && (Find(content, w, 0) == Some(at) ==>
                  ReplaceFirst(content, w, with)
                  == BeforeWindow(Split(content), i) + with + AfterWindow(Split(content), i + n))
  {
    var w, at := Join(Split(content)[i..i + n]), |BeforeWindow(Split(content), i)|;
    JoinSplit(content);
    hide *;
    WindowOccurs(content, n, i);
    var before, after := WindowIsSubstring(Split(content), i, n);
    FoundUnlessBefore(content, w, at);
    AroundWindow(before, w, after);
    ReplaceFound(content, w, with, at);
  }

  lemma {:induction false} FoundUnlessBefore(content: string, w: string, at: nat)
    requires OccursAt(content, w, at)
    ensures Find(content, w, 0) == Some(at) <==> !OccursBefore(content, w, at)
  {
  }

  // ---- An edit that lands elsewhere --------------------------------------------------------------

  lemma {:induction false} ExampleLines()
    ensures Split("a b\n b\n") == ["a b", " b", ""] && Split("\tb\n") == ["\tb", ""]
  {
    SplitJoin(["a b", " b", ""]);
    SplitJoin(["\tb", ""]);
    hide Split;
    assert ["a b", " b", ""][1..] == [" b", ""] && [" b", ""][1..] == [""] && ["\tb", ""][1..] == [""];
    assert Join([""]) == "";
    assert " b" + "\n" + "" == " b\n" && "\tb" + "\n" + "" == "\tb\n" && "a b" + "\n" + " b\n" == "a b\n b\n";
    assert Join([" b", ""]) == " b" + "\n" + "" && Join(["\tb", ""]) == "\tb" + "\n" + "";
    assert Join(["a b", " b", ""]) == "a b" + "\n" + Join([" b", ""]);
  }

  lemma {:induction false} ExampleStrips()
    ensures Strip("\tb") == "b" && Strip(" b") == "b" && Strip("a b") == "a b" && Strip("") == ""
    ensures RStrip("\tb") == "\tb" && RStrip(" b") == " b" && RStrip("a b") == "a b" && RStrip("") == ""
  {
    assert "\tb"[1..] == "b" && " b"[1..] == "b";
  }

  lemma {:induction false} ExampleFits()
    ensures FirstFit(TrailingSpace, ["a b", " b", ""], ["\tb", ""], 0) == None
    ensures OnlyFit(Indentation, ["a b", " b", ""], ["\tb", ""]) == Some(1)
  {
    var lines, pattern := ["a b", " b", ""], ["\tb", ""];
    ExampleStrips();
    hide RStrip, LStrip, Strip;
    assert "\tb"[0] == '\t' && " b"[0] == ' ' && |"a b"| == 3;
    assert lines[0 + 0] == "a b" && lines[1 + 0] == " b" && pattern[0] == "\tb";
    assert lines[1 + 1] == "" && pattern[1] == "";
    assert Fits(Indentation, lines, pattern, 1) && AnyLine(Indentation, pattern);
    OnlyFitIffOne(Indentation, lines, pattern, 1);
  }

  // A tier can find the one line that reads like SEARCH, and the edit still lands in another: the
  // replacement goes to the first occurrence of that line's text, here the end of the line before.
  lemma {:induction false} LandsElsewhere(ratio: Similarity)
    ensures var content, search := "a b\n b\n", "\tb\n";
            && OnlyFit(Indentation, Split(content), Split(search)) == Some(1)
            && Matched(ratio, content, search) == Some(" b\n")
            && ReplaceFirst(content, " b\n", "x\n") == "ax\n b\n"
  {
    ExampleLines();
    ExampleFits();
    ExampleReplace();
    hide Split, FirstFit, OnlyFit, FuzzyFit, Find, ReplaceFirst;
    assert ["a b", " b", ""][1..3] == [" b", ""] && [" b", ""][1..] == [""];
    assert Join([" b", ""]) == " b" + "\n" + Join([""]) && Join([""]) == "";
    assert " b" + "\n" + "" == " b\n";
  }

  lemma {:induction false} ExampleReplace()
    ensures Find("a b\n b\n", "\tb\n", 0) == None && ReplaceFirst("a b\n b\n", " b\n", "x\n") == "ax\n b\n"
  {
    var content := "a b\n b\n";
    assert forall k: nat :: !OccursAt(content, "\tb\n", k) by {
      forall k: nat ensures !OccursAt(content, "\tb\n", k) { assert "\tb\n"[0] == '\t'; }
    }
    assert !OccursAt(content, " b\n", 0) by { assert " b\n"[0] == ' '; }
    FoundAt(content, " b\n", 0, 1);
  }
}
