/**
 Finding the lines of a file that a model's SEARCH text means: exactly, up to trailing white space,
 up to indentation, up to formatting, and at last by similarity.
 */
module EditMatching {
  import opened Options
  import opened Text

  // What a tier ignores in a line.
  datatype Tier = TrailingSpace | Indentation | Formatting

  function CollapseSpaces(s: string): string {
    if s == "" then ""
    else if !IsSpace(s[0]) then [s[0]] + CollapseSpaces(s[1..])
    else if |s| > 1 && IsSpace(s[1]) then CollapseSpaces(s[1..])
    else " " + CollapseSpaces(s[1..])
  }

  function SingleQuotes(s: string): (r: string)
    ensures |r| == |s|
  {
    if s == "" then "" else [if s[0] == '"' then '\'' else s[0]] + SingleQuotes(s[1..])
  }

  function DropComma(s: string): string {
    if s != "" && s[|s| - 1] == ',' then s[..|s| - 1] else s
  }

  function NormalizeLine(line: string): string {
    DropComma(SingleQuotes(CollapseSpaces(Strip(line))))
  }

  function Canon(tier: Tier, line: string): string {
    match tier
    case TrailingSpace => RStrip(line)
    case Indentation => Strip(line)
    case Formatting => NormalizeLine(line)
  }

  // The window of `lines` at `i` reads like `pattern` at this tier.
  predicate Fits(tier: Tier, lines: seq<string>, pattern: seq<string>, i: nat) {
    i + |pattern| <= |lines|
    && forall j {:trigger pattern[j]} :: 0 <= j < |pattern| ==> Canon(tier, lines[i + j]) == Canon(tier, pattern[j])
  }

  function FirstFit(tier: Tier, lines: seq<string>, pattern: seq<string>, from: nat): (r: Option<nat>)
    ensures r.Some? ==> from <= r.value && r.value + |pattern| <= |lines| && Fits(tier, lines, pattern, r.value)
    ensures r.Some? ==> forall k: nat {:trigger Fits(tier, lines, pattern, k)} :: from <= k < r.value ==>
              !Fits(tier, lines, pattern, k)
    ensures r.None? ==> forall k: nat {:trigger Fits(tier, lines, pattern, k)} :: from <= k ==>
              !Fits(tier, lines, pattern, k)
    decreases |lines| - from
  {
    hide Fits;
    if from + |pattern| > |lines| then
      NoRoom(tier, lines, pattern, from);
      None
    else if Fits(tier, lines, pattern, from) then Some(from)
    else
      NothingFitsNothing(tier, lines, pattern, from);
      FirstFit(tier, lines, pattern, from + 1)
  }

  lemma {:induction false} NothingFitsNothing(tier: Tier, lines: seq<string>, pattern: seq<string>, from: nat)
    requires from + |pattern| <= |lines| && !Fits(tier, lines, pattern, from)
    ensures pattern != []
  {
  }

  lemma {:induction false} NoRoom(tier: Tier, lines: seq<string>, pattern: seq<string>, from: nat)
    requires from + |pattern| > |lines|
    ensures forall k: nat {:trigger Fits(tier, lines, pattern, k)} :: from <= k ==> !Fits(tier, lines, pattern, k)
  {
    hide Canon;
  }

  // A line of the pattern is left after the tier has ignored what it ignores.
  predicate AnyLine(tier: Tier, pattern: seq<string>) {
    exists j {:trigger pattern[j]} :: 0 <= j < |pattern| && Canon(tier, pattern[j]) != ""
  }

  // The one place where a non-blank pattern fits; none when there are two.
  function OnlyFit(tier: Tier, lines: seq<string>, pattern: seq<string>): (r: Option<nat>)
    ensures r.Some? ==> r.value + |pattern| <= |lines|
  {
    if !AnyLine(tier, pattern) then None
    else
      var first := FirstFit(tier, lines, pattern, 0);
      if first.Some? && FirstFit(tier, lines, pattern, first.value + 1).None? then first else None
  }

  lemma {:induction false} OnlyFitIffOne(tier: Tier, lines: seq<string>, pattern: seq<string>, i: nat)
    ensures OnlyFit(tier, lines, pattern) == Some(i)
       <==> AnyLine(tier, pattern) && Fits(tier, lines, pattern, i)
            && forall k: nat {:trigger Fits(tier, lines, pattern, k)} :: k != i ==> !Fits(tier, lines, pattern, k)
  {
    var first := FirstFit(tier, lines, pattern, 0);
    if AnyLine(tier, pattern) && Fits(tier, lines, pattern, i)
       && forall k: nat {:trigger Fits(tier, lines, pattern, k)} :: k != i ==> !Fits(tier, lines, pattern, k)
    {
      assert first == Some(i);
    }
  }

  function WindowText(lines: seq<string>, n: nat, at: Option<nat>): Option<string>
    requires at.Some? ==> at.value + n <= |lines|
  {
    if at.Some? then Some(Join(lines[at.value..at.value + n])) else None
  }

  // ---- The tiers as loops --------------------------------------------------------------------

  method MatchIgnoringTrailingSpace(content: string, search: string) returns (r: Option<string>)
    ensures r == WindowText(Split(content), |Split(search)|, FirstFit(TrailingSpace, Split(content), Split(search), 0))
  {
    hide Canon, Split, Join, FirstFit;
    var pattern, lines := Split(search), Split(content);
    var i := 0;
    while i + |pattern| <= |lines|
      invariant forall k: nat {:trigger Fits(TrailingSpace, lines, pattern, k)} :: k < i ==>
                  !Fits(TrailingSpace, lines, pattern, k)
    {
      if Fits(TrailingSpace, lines, pattern, i) {
        FirstIs(TrailingSpace, lines, pattern, i);
        return Some(Join(lines[i..i + |pattern|]));
      }
      i := i + 1;
    }
    return None;
  }

  lemma {:induction false} FirstIs(tier: Tier, lines: seq<string>, pattern: seq<string>, i: nat)
    requires Fits(tier, lines, pattern, i)
    requires forall k: nat {:trigger Fits(tier, lines, pattern, k)} :: k < i ==> !Fits(tier, lines, pattern, k)
    ensures FirstFit(tier, lines, pattern, 0) == Some(i)
  {
  }

  // The places below `n` where the pattern fits, when there is at most one.
  ghost predicate Seen(tier: Tier, lines: seq<string>, pattern: seq<string>, n: nat, matches: seq<nat>) {
    && (forall k: nat {:trigger Fits(tier, lines, pattern, k)} :: k < n && Fits(tier, lines, pattern, k) ==>
         matches == [k])
    && (matches != [] ==> |matches| == 1 && matches[0] < n && Fits(tier, lines, pattern, matches[0]))
  }

  lemma {:induction false} NoneSeen(tier: Tier, lines: seq<string>, pattern: seq<string>)
    ensures Seen(tier, lines, pattern, 0, [])
  {
  }

  lemma {:induction false} SeenNext(tier: Tier, lines: seq<string>, pattern: seq<string>, n: nat, matches: seq<nat>)
    requires Seen(tier, lines, pattern, n, matches)
    ensures matches != [] ==> |matches| == 1
    ensures !Fits(tier, lines, pattern, n) ==> Seen(tier, lines, pattern, n + 1, matches)
    ensures Fits(tier, lines, pattern, n) && matches == [] ==> Seen(tier, lines, pattern, n + 1, matches + [n])
    ensures Fits(tier, lines, pattern, n) && matches != [] ==> OnlyFit(tier, lines, pattern) == None
  {
    hide Fits, AnyLine;
    assert matches == [] ==> matches + [n] == [n];
    if Fits(tier, lines, pattern, n) && matches != [] { TwoFits(tier, lines, pattern, matches[0], n); }
  }

  // The two tiers that insist on a single match share this loop.
  method MatchUnique(tier: Tier, content: string, search: string) returns (r: Option<string>)
    ensures r == WindowText(Split(content), |Split(search)|, OnlyFit(tier, Split(content), Split(search)))
  {
    if !AnyLine(tier, Split(search)) { return None; }
    r := UniqueWindow(tier, Split(content), Split(search));
  }

  method UniqueWindow(tier: Tier, lines: seq<string>, pattern: seq<string>) returns (r: Option<string>)
    requires AnyLine(tier, pattern)
    ensures r == WindowText(lines, |pattern|, OnlyFit(tier, lines, pattern))
  {
    hide *;
    var matches: seq<nat> := [];
    var i := 0;
    NoneSeen(tier, lines, pattern);
    while i + |pattern| <= |lines|
      invariant Seen(tier, lines, pattern, i, matches)
    {
      SeenNext(tier, lines, pattern, i, matches);
      if Fits(tier, lines, pattern, i) {
        matches := matches + [i];
        if |matches| > 1 { return WindowText(lines, |pattern|, None); }
      }
      i := i + 1;
    }
    SeenAll(tier, lines, pattern, i, matches);
    r := WindowText(lines, |pattern|, if matches != [] then Some(matches[0]) else None);
  }

  lemma {:induction false} SeenAll(tier: Tier, lines: seq<string>, pattern: seq<string>, n: nat, matches: seq<nat>)
    requires Seen(tier, lines, pattern, n, matches) && n + |pattern| > |lines| && AnyLine(tier, pattern)
    ensures OnlyFit(tier, lines, pattern) == if matches != [] then Some(matches[0]) else None
    ensures matches != [] ==> matches[0] + |pattern| <= |lines|
  {
    hide Canon, AnyLine;
    if matches != [] { OnlyFitIffOne(tier, lines, pattern, matches[0]); }
  }

  lemma {:induction false} TwoFits(tier: Tier, lines: seq<string>, pattern: seq<string>, i: nat, j: nat)
    requires i != j && Fits(tier, lines, pattern, i) && Fits(tier, lines, pattern, j)
    ensures OnlyFit(tier, lines, pattern) == None
  {
  }

  // ---- Similarity -----------------------------------------------------------------------------

  const FUZZY_THRESHOLD := 0.92
  const FUZZY_MARGIN := 0.02

  // The similarity measure: all that is asked of it is that nothing is more alike than a text is to itself.
  ghost predicate IsSimilarity(f: (string, string) -> real) {
    forall x, y {:trigger f(x, y)} :: f(x, y) <= f(y, y) == 1.0
  }

  type Similarity = f: (string, string) -> real | IsSimilarity(f) witness (x, y) => if x == y then 1.0 else 0.0

  function Normalized(lines: seq<string>): seq<string> {
    seq(|lines|, i requires 0 <= i < |lines| => NormalizeLine(lines[i]))
  }

  function Score(ratio: Similarity, lines: seq<string>, pattern: seq<string>, i: nat): real
    requires i + |pattern| <= |lines|
  {
    ratio(Join(Normalized(lines[i..i + |pattern|])), Join(Normalized(pattern)))
  }

  // Window `i` is alike enough, and clearly more alike than every other window.
  ghost predicate ClearBest(ratio: Similarity, lines: seq<string>, pattern: seq<string>, i: nat) {
    && i + |pattern| <= |lines| && Score(ratio, lines, pattern, i) >= FUZZY_THRESHOLD
    && forall j: nat {:trigger Score(ratio, lines, pattern, j)} :: j != i && j + |pattern| <= |lines|
         ==> Score(ratio, lines, pattern, i) - Score(ratio, lines, pattern, j) >= FUZZY_MARGIN
  }

  // The runner-up is the best of the windows that are not the best.
  ghost predicate Leads(ratio: Similarity, lines: seq<string>, pattern: seq<string>, n: nat, best: Option<nat>,
        high: real, second: real)
    requires n + |pattern| <= |lines| + 1
  {
    && 0.0 <= second <= high
    && (best.None? ==> high == 0.0)
    && (best.Some? ==> best.value < n && high == Score(ratio, lines, pattern, best.value))
    && (forall j: nat {:trigger Score(ratio, lines, pattern, j)} :: j < n && Some(j) != best ==>
         Score(ratio, lines, pattern, j) <= second)
    && (second == 0.0 ||
        exists j: nat {:trigger Score(ratio, lines, pattern, j)} ::
          j < n && Some(j) != best && second == Score(ratio, lines, pattern, j))
  }

  ghost predicate Blank(pattern: seq<string>) {
    Strip(Join(Normalized(pattern))) == ""
  }

  // The window the last tier picks.
  ghost function FuzzyFit(ratio: Similarity, lines: seq<string>, pattern: seq<string>): (r: Option<nat>)
    ensures r.Some? ==> r.value + |pattern| <= |lines| && ClearBest(ratio, lines, pattern, r.value)
  {
    if !Blank(pattern) && exists i: nat {:trigger ClearBest(ratio, lines, pattern, i)} ::
        ClearBest(ratio, lines, pattern, i) then
      var i: nat :| ClearBest(ratio, lines, pattern, i);
      Some(i)
    else None
  }

  lemma {:induction false} FuzzyFitIff(ratio: Similarity, lines: seq<string>, pattern: seq<string>, i: nat)
    ensures FuzzyFit(ratio, lines, pattern) == Some(i) <==> !Blank(pattern) && ClearBest(ratio, lines, pattern, i)
  {
    hide Score, Blank;
    if FuzzyFit(ratio, lines, pattern).Some? && ClearBest(ratio, lines, pattern, i) {
      OneClearBest(ratio, lines, pattern, i, FuzzyFit(ratio, lines, pattern).value);
    }
  }

  lemma {:induction false} OneClearBest(ratio: Similarity, lines: seq<string>, pattern: seq<string>, i: nat, k: nat)
    requires ClearBest(ratio, lines, pattern, i) && ClearBest(ratio, lines, pattern, k)
    ensures i == k
  {
    hide Score;
  }

  lemma {:induction false} LeadsNext(ratio: Similarity, lines: seq<string>, pattern: seq<string>, n: nat,
        best: Option<nat>, high: real, second: real)
    requires n + |pattern| <= |lines| && Leads(ratio, lines, pattern, n, best, high, second)
    ensures var score := Score(ratio, lines, pattern, n);
            if score > high then Leads(ratio, lines, pattern, n + 1, Some(n), score, high)
            else if score > second then Leads(ratio, lines, pattern, n + 1, best, high, score)
            else Leads(ratio, lines, pattern, n + 1, best, high, second)
  {
    hide Score;
  }

  method MatchFuzzy(ratio: Similarity, content: string, search: string) returns (r: Option<string>)
    ensures r == WindowText(Split(content), |Split(search)|, FuzzyFit(ratio, Split(content), Split(search)))
  {
    var lines, pattern := Split(content), Split(search);
    if Strip(Join(Normalized(pattern))) == "" { return None; }
    if |lines| < |pattern| { return None; }
    r := BestWindow(ratio, lines, pattern);
  }

  method BestWindow(ratio: Similarity, lines: seq<string>, pattern: seq<string>) returns (r: Option<string>)
    requires |pattern| <= |lines| && !Blank(pattern)
    ensures r == WindowText(lines, |pattern|, FuzzyFit(ratio, lines, pattern))
  {
    var best: Option<nat>, high, second := None, 0.0, 0.0;
    var i := 0;
    assert Leads(ratio, lines, pattern, 0, best, high, second);
    hide *;
    while i + |pattern| <= |lines|
      invariant i + |pattern| <= |lines| + 1
      invariant Leads(ratio, lines, pattern, i, best, high, second)
    {
      LeadsNext(ratio, lines, pattern, i, best, high, second);
      BestInside(ratio, lines, pattern, i, best, high, second);
      var score := Score(ratio, lines, pattern, i);
      if score > high {
        best, high, second := Some(i), score, high;
      } else if score > second {
        second := score;
      }
      i := i + 1;
    }
    assert i == |lines| - |pattern| + 1;
    Decide(ratio, lines, pattern, best, high, second);
    if best.Some? && high >= FUZZY_THRESHOLD && high - second >= FUZZY_MARGIN {
      FuzzyFitIff(ratio, lines, pattern, best.value);
      r := WindowText(lines, |pattern|, best);
    } else {
      NoFuzzyFit(ratio, lines, pattern);
      r := WindowText(lines, |pattern|, None);
    }
  }

  lemma {:induction false} NoFuzzyFit(ratio: Similarity, lines: seq<string>, pattern: seq<string>)
    requires forall i: nat {:trigger ClearBest(ratio, lines, pattern, i)} :: !ClearBest(ratio, lines, pattern, i)
    ensures FuzzyFit(ratio, lines, pattern) == None
  {
  }

  lemma {:induction false} BestInside(ratio: Similarity, lines: seq<string>, pattern: seq<string>, n: nat,
        best: Option<nat>, high: real, second: real)
    requires n + |pattern| <= |lines| + 1 && Leads(ratio, lines, pattern, n, best, high, second)
    ensures best.Some? ==> best.value + |pattern| <= |lines|
  {
  }

  lemma {:induction false} Decide(ratio: Similarity, lines: seq<string>, pattern: seq<string>, best: Option<nat>,
        high: real, second: real)
    requires |pattern| <= |lines| && Leads(ratio, lines, pattern, |lines| - |pattern| + 1, best, high, second)
    ensures best.Some? && high >= FUZZY_THRESHOLD && high - second >= FUZZY_MARGIN ==>
              ClearBest(ratio, lines, pattern, best.value)
    ensures !(best.Some? && high >= FUZZY_THRESHOLD && high - second >= FUZZY_MARGIN) ==>
              forall i: nat {:trigger ClearBest(ratio, lines, pattern, i)} :: !ClearBest(ratio, lines, pattern, i)
  {
    hide Score;
    forall i: nat | ClearBest(ratio, lines, pattern, i)
      ensures best == Some(i) && high >= FUZZY_THRESHOLD && high - second >= FUZZY_MARGIN
    {
      ClearIsBest(ratio, lines, pattern, best, high, second, i);
    }
  }

  // The only window that can be a clear best is the one the scan kept.
  lemma {:induction false} ClearIsBest(ratio: Similarity, lines: seq<string>, pattern: seq<string>, best: Option<nat>,
        high: real, second: real, i: nat)
    requires |pattern| <= |lines| && Leads(ratio, lines, pattern, |lines| - |pattern| + 1, best, high, second)
    requires ClearBest(ratio, lines, pattern, i)
    ensures best == Some(i) && high >= FUZZY_THRESHOLD && high - second >= FUZZY_MARGIN
  {
    hide Score;
    assert Score(ratio, lines, pattern, i) <= high;
  }

  // ---- All tiers -------------------------------------------------------------------------------

  // Python's `or`: an empty match falls through to the next tier.
  function Or(a: Option<string>, b: Option<string>): Option<string> {
    if a.Some? && a.value != "" then a else b
  }

  ghost function Matched(ratio: Similarity, content: string, search: string): Option<string> {
    var lines, pattern := Split(content), Split(search);
    if Find(content, search, 0).Some? then Some(search)
    else
      Or(WindowText(lines, |pattern|, FirstFit(TrailingSpace, lines, pattern, 0)),
         Or(WindowText(lines, |pattern|, OnlyFit(Indentation, lines, pattern)),
            Or(WindowText(lines, |pattern|, OnlyFit(Formatting, lines, pattern)),
               WindowText(lines, |pattern|, FuzzyFit(ratio, lines, pattern)))))
  }

  method FindMatch(ratio: Similarity, content: string, search: string) returns (r: Option<string>)
    ensures r == Matched(ratio, content, search)
  {
    if Find(content, search, 0).Some? { return Some(search); }
    hide Split, Join, FirstFit, OnlyFit, FuzzyFit, WindowText;
    r := MatchIgnoringTrailingSpace(content, search);
    if r.Some? && r.value != "" { return; }
    r := MatchUnique(Indentation, content, search);
    if r.Some? && r.value != "" { return; }
    r := MatchUnique(Formatting, content, search);
    if r.Some? && r.value != "" { return; }
    r := MatchFuzzy(ratio, content, search);
  }

  lemma {:induction false} JoinEmpty(lines: seq<string>)
    requires lines != [] && Join(lines) == ""
    ensures lines == [""]
  {
  }

  // A match of a tier before the last is never empty, so the `or` drops none.
  lemma {:induction false} OrDropsNothing(content: string, search: string, tier: Tier, i: nat)
    requires Strip(search) != ""
    requires if tier == TrailingSpace then FirstFit(tier, Split(content), Split(search), 0) == Some(i)
             else OnlyFit(tier, Split(content), Split(search)) == Some(i)
    ensures WindowText(Split(content), |Split(search)|, Some(i)).value != ""
  {
    BlankFit(search, tier);
    if tier != TrailingSpace { OnlyFitIffOne(tier, Split(content), Split(search), i); }
    hide Split, RStrip, LStrip, Fits, CollapseSpaces, FirstFit, Join;
    WindowNotEmpty(tier, Split(content), Split(search), i);
  }

  lemma {:induction false} WindowNotEmpty(tier: Tier, lines: seq<string>, pattern: seq<string>, i: nat)
    requires pattern != [] && i + |pattern| <= |lines| && Fits(tier, lines, pattern, i)
    requires |pattern| == 1 ==> Canon(tier, pattern[0]) != Canon(tier, "")
    ensures Join(lines[i..i + |pattern|]) != ""
  {
    var window := lines[i..i + |pattern|];
    assert lines[i] == window[0];
    FirstLineFits(tier, lines, pattern, i);
    hide *;
    if Join(window) == "" { JoinEmpty(window); }
  }

  lemma {:induction false} FirstLineFits(tier: Tier, lines: seq<string>, pattern: seq<string>, i: nat)
    requires pattern != [] && Fits(tier, lines, pattern, i)
    ensures Canon(tier, lines[i]) == Canon(tier, pattern[0])
  {
    assert pattern[0] == pattern[0] && lines[i + 0] == lines[i];
  }

  lemma {:induction false} BlankFit(search: string, tier: Tier)
    ensures Split(search) == [search] || |Split(search)| > 1
    ensures Canon(tier, "") == ""
    ensures Strip(search) != "" ==> RStrip(search) != ""
  {
    JoinSplit(search);
  }

  ghost predicate Inside(content: string, r: Option<string>) {
    r.Some? ==> Find(content, r.value, 0).Some?
  }

  // Whatever a tier finds is text of the file.
  lemma {:induction false} MatchedOccurs(ratio: Similarity, content: string, search: string)
    ensures Inside(content, Matched(ratio, content, search))
  {
    hide Split, Find, FirstFit, OnlyFit, FuzzyFit, WindowText, Fits, ClearBest;
    var lines, pattern := Split(content), Split(search);
    WindowInside(content, |pattern|, FirstFit(TrailingSpace, lines, pattern, 0));
    WindowInside(content, |pattern|, OnlyFit(Indentation, lines, pattern));
    WindowInside(content, |pattern|, OnlyFit(Formatting, lines, pattern));
    WindowInside(content, |pattern|, FuzzyFit(ratio, lines, pattern));
  }

  lemma {:induction false} WindowInside(content: string, n: nat, at: Option<nat>)
    requires 0 < n && (at.Some? ==> at.value + n <= |Split(content)|)
    ensures Inside(content, WindowText(Split(content), n, at))
  {
    if at.Some? { WindowOccurs(content, n, at.value); }
  }

  lemma {:induction false} WindowOccurs(content: string, n: nat, i: nat)
    requires 0 < n && i + n <= |Split(content)|
    ensures OccursAt(content, Join(Split(content)[i..i + n]), |BeforeWindow(Split(content), i)|)
  {
    var lines := Split(content);
    JoinSplit(content);
    hide Join, Split;
    var before, after := WindowIsSubstring(lines, i, n);
    var w := Join(lines[i..i + n]);
    assert content == before + w + after;
  }

  // What a tier ignores, the later ones ignore too.
  lemma {:induction false} FitsWeaken(lines: seq<string>, pattern: seq<string>, i: nat)
    ensures Fits(TrailingSpace, lines, pattern, i) ==> Fits(Indentation, lines, pattern, i)
    ensures Fits(Indentation, lines, pattern, i) ==> Fits(Formatting, lines, pattern, i)
  {
    hide RStrip, LStrip, CollapseSpaces, SingleQuotes, DropComma;
  }

  lemma {:induction false} PerfectScore(ratio: Similarity, lines: seq<string>, pattern: seq<string>, i: nat)
    requires Fits(Formatting, lines, pattern, i)
    ensures Score(ratio, lines, pattern, i) == 1.0
    ensures forall j: nat {:trigger Score(ratio, lines, pattern, j)} :: j + |pattern| <= |lines| ==>
              Score(ratio, lines, pattern, j) <= 1.0
  {
    assert Normalized(lines[i..i + |pattern|]) == Normalized(pattern);
    var goal := Join(Normalized(pattern));
    assert ratio(goal, goal) == 1.0;
  }

  // Ambiguity survives every tier: a SEARCH text that is not in the file as it stands, nor up to
  // trailing white space, but reads like two places of it up to indentation, is matched nowhere.
  lemma {:induction false} AmbiguousIsSkipped(ratio: Similarity, content: string, search: string, i: nat, j: nat)
    requires Find(content, search, 0) == None && FirstFit(TrailingSpace, Split(content), Split(search), 0) == None
    requires i != j && Fits(Indentation, Split(content), Split(search), i)
               && Fits(Indentation, Split(content), Split(search), j)
    ensures Matched(ratio, content, search) == None
  {
    var lines, pattern := Split(content), Split(search);
    TwoFits(Indentation, lines, pattern, i, j);
    FitsWeaken(lines, pattern, i);
    FitsWeaken(lines, pattern, j);
    TwoFits(Formatting, lines, pattern, i, j);
    NoClearBest(ratio, lines, pattern, i, j);
    NoFuzzyFit(ratio, lines, pattern);
    hide Split, FirstFit, OnlyFit, FuzzyFit, Fits;
  }

  lemma {:induction false} NoClearBest(ratio: Similarity, lines: seq<string>, pattern: seq<string>, i: nat, j: nat)
    requires i != j && Fits(Formatting, lines, pattern, i) && Fits(Formatting, lines, pattern, j)
    ensures forall k: nat {:trigger ClearBest(ratio, lines, pattern, k)} :: !ClearBest(ratio, lines, pattern, k)
  {
    PerfectScore(ratio, lines, pattern, i);
    PerfectScore(ratio, lines, pattern, j);
    hide Score, Canon;
    forall k: nat
      ensures !ClearBest(ratio, lines, pattern, k)
    {
      assert Score(ratio, lines, pattern, i) == Score(ratio, lines, pattern, j) == 1.0;
    }
  }
}
