/**
 Lines as their words: what stripping, collapsing white space and the formatting tier keep of a line.

 Agreement of two lines at a matching tier comes down to a common text with white space behind it, to
 one with white space around it, or to the same words, quotes and commas aside.  The sections of a
 documentation note are their words as well, so the note has as many lines as it is written with.
 */
module LineWords {
  import opened Text
  import opened Options
  import opened EditMatching
  import DocsNote

  // The longest runs of characters other than white space, in order.
  function WordsOf(s: string): (r: seq<string>)
    ensures s != "" && !IsSpace(s[0]) ==> r != []
  {
    if s == "" then []
    else if IsSpace(s[0]) then WordsOf(s[1..])
    else if |s| > 1 && !IsSpace(s[1]) then
      var rest := WordsOf(s[1..]);
      [[s[0]] + rest[0]] + rest[1..]
    else [[s[0]]] + WordsOf(s[1..])
  }

  function Spaced(words: seq<string>): string {
    if words == [] then ""
    else if |words| == 1 then words[0]
    else words[0] + " " + Spaced(words[1..])
  }

  // ---- White space at the ends ---------------------------------------------------------------------

  lemma {:induction false} LStripSpace(w: string, s: string)
    requires AllSpace(w)
    ensures LStrip(w + s) == LStrip(s)
    decreases |w|
  {
    if w == "" {
      assert w + s == s;
    } else {
      assert (w + s)[1..] == w[1..] + s;
      LStripSpace(w[1..], s);
    }
  }

  lemma {:induction false} RStripSpace(s: string, w: string)
    requires AllSpace(w)
    ensures RStrip(s + w) == RStrip(s)
    decreases |w|
  {
    if w == "" {
      assert s + w == s;
    } else {
      assert (s + w)[..|s + w| - 1] == s + w[..|w| - 1];
      RStripSpace(s, w[..|w| - 1]);
    }
  }

  // Some text with white space behind it.
  ghost predicate Trailed(s: string, text: string) {
    text <= s && AllSpace(s[|text|..])
  }

  // Two lines agree up to trailing white space exactly when both are one text with some behind it.
  lemma {:induction false} TrailingIff(a: string, b: string)
    ensures Canon(TrailingSpace, a) == Canon(TrailingSpace, b) <==>
              exists text {:trigger Trailed(a, text)} :: Trailed(a, text) && Trailed(b, text)
  {
    RStripParts(a);
    RStripParts(b);
    assert Trailed(a, RStrip(a)) && Trailed(b, RStrip(b));
    hide RStrip, AllSpace;
    if text :| Trailed(a, text) && Trailed(b, text) {
      assert a == text + a[|text|..] && b == text + b[|text|..];
      RStripSpace(text, a[|text|..]);
      RStripSpace(text, b[|text|..]);
    }
  }

  // Some text with white space around it.
  ghost predicate Surrounded(s: string, n: nat, text: string) {
    n + |text| <= |s| && s[n..n + |text|] == text && AllSpace(s[..n]) && AllSpace(s[n + |text|..])
  }

  lemma {:induction false} SpaceConcat(a: string, b: string)
    ensures AllSpace(a) && AllSpace(b) <==> AllSpace(a + b)
  {
    if AllSpace(a + b) {
      forall k | 0 <= k < |a| ensures IsSpace(a[k]) { assert (a + b)[k] == a[k]; }
      forall k | 0 <= k < |b| ensures IsSpace(b[k]) { assert (a + b)[|a| + k] == b[k]; }
    }
  }

  lemma {:induction false} StripBody(before: string, body: string, after: string)
    requires AllSpace(before) && AllSpace(after) && body != "" && IsRStripped(body)
    ensures Strip(before + body + after) == LStrip(body)
  {
    assert (before + body)[|before + body| - 1] == body[|body| - 1];
    RStripAppend(before + body, after);
    LStripSpace(before, body);
  }

  lemma {:induction false} StripSpace(s: string)
    requires AllSpace(s)
    ensures Strip(s) == ""
  {
    RStripSpace("", s);
    assert "" + s == s;
  }

  lemma {:induction false} StripSurrounded(s: string, n: nat, text: string)
    requires Surrounded(s, n, text)
    ensures Strip(s) == Strip(text)
  {
    hide *;
    var before, after := SurroundedParts(s, n, text);
    var body, rest := StrippedParts(text);
    Regroup(before, body, rest, after);
    SpaceConcat(rest, after);
    if body == "" {
      SpaceConcat(before, rest + after);
      StripSpace(s);
    } else {
      StripBody(before, body, rest + after);
    }
  }

  lemma {:induction false} SurroundedParts(s: string, n: nat, text: string) returns (before: string, after: string)
    requires Surrounded(s, n, text)
    ensures AllSpace(before) && AllSpace(after) && s == before + text + after
  {
    before, after := s[..n], s[n + |text|..];
    hide AllSpace;
  }

  lemma {:induction false} StrippedParts(text: string) returns (body: string, rest: string)
    ensures text == body + rest && AllSpace(rest) && IsRStripped(body) && Strip(text) == LStrip(body)
    ensures body == "" ==> Strip(text) == ""
  {
    RStripParts(text);
    body := RStrip(text);
    rest := text[|body|..];
    hide RStrip, AllSpace;
  }

  lemma {:induction false} Regroup(a: string, b: string, c: string, d: string)
    ensures a + (b + c) + d == a + b + (c + d) && (b == "" ==> a + b + (c + d) == a + (c + d))
  {
  }

  lemma {:induction false} StripIsSurrounded(s: string) returns (n: nat)
    ensures Surrounded(s, n, Strip(s))
  {
    RStripParts(s);
    var t := RStrip(s);
    LStripParts(t);
    n := |t| - |LStrip(t)|;
    assert s[..n] == t[..n] && s[n..n + |Strip(s)|] == t[n..];
    hide RStrip, LStrip;
  }

  // Two lines agree up to indentation exactly when both are one text with white space around it.
  lemma {:induction false} IndentationIff(a: string, b: string)
    ensures Canon(Indentation, a) == Canon(Indentation, b) <==>
              exists text, m: nat, n: nat {:trigger Surrounded(a, m, text), Surrounded(b, n, text)} ::
                Surrounded(a, m, text) && Surrounded(b, n, text)
  {
    var i := StripIsSurrounded(a);
    var j := StripIsSurrounded(b);
    hide Strip, Surrounded;
    if text, m: nat, n: nat :| Surrounded(a, m, text) && Surrounded(b, n, text) {
      StripSurrounded(a, m, text);
      StripSurrounded(b, n, text);
    }
  }

  // ---- Words ---------------------------------------------------------------------------------------

  lemma {:induction false} LStripWords(s: string)
    ensures WordsOf(LStrip(s)) == WordsOf(s)
  {
    if s != "" && IsSpace(s[0]) { LStripWords(s[1..]); }
  }

  // One more character: white space adds nothing, another joins the last word or begins one.
  lemma {:induction false} WordsNext(s: string, c: char)
    ensures var words, more := WordsOf(s), WordsOf(s + [c]);
            if IsSpace(c) then more == words
            else if s != "" && !IsSpace(s[|s| - 1]) then
              words != [] && more == words[..|words| - 1] + [words[|words| - 1] + [c]]
            else more == words + [[c]]
  {
    var t := s + [c];
    if s == "" {
      assert t[1..] == "";
    } else {
      assert t[1..] == s[1..] + [c];
      WordsNext(s[1..], c);
      hide IsSpace;
      if |s| > 1 {
        assert t[1] == s[1] && s[1..][|s| - 2] == s[|s| - 1];
        if !IsSpace(s[0]) && !IsSpace(s[1]) {
          hide WordsOf;
          FirstGrows(s, c);
        }
      } else {
        assert s[1..] == "" && t[1] == c;
      }
    }
  }

  // The first word of a text that begins with two characters of one word.
  lemma {:induction false} FirstWord(s: string)
    requires |s| > 1 && !IsSpace(s[0]) && !IsSpace(s[1])
    ensures WordsOf(s[1..]) != [] && WordsOf(s) == [[s[0]] + WordsOf(s[1..])[0]] + WordsOf(s[1..])[1..]
  {
  }

  lemma {:induction false} FirstGrows(s: string, c: char)
    requires |s| > 1 && !IsSpace(s[0]) && !IsSpace(s[1])
    requires var words, more := WordsOf(s[1..]), WordsOf(s[1..] + [c]);
             if IsSpace(c) then more == words
             else if !IsSpace(s[|s| - 1]) then
               words != [] && more == words[..|words| - 1] + [words[|words| - 1] + [c]]
             else more == words + [[c]]
    ensures var words, more := WordsOf(s), WordsOf(s + [c]);
            if IsSpace(c) then more == words
            else if !IsSpace(s[|s| - 1]) then
              words != [] && more == words[..|words| - 1] + [words[|words| - 1] + [c]]
            else more == words + [[c]]
  {
    FirstWord(s);
    assert (s + [c])[1..] == s[1..] + [c] && (s + [c])[0] == s[0] && (s + [c])[1] == s[1];
    FirstWord(s + [c]);
    hide WordsOf, IsSpace;
    var rest, more := WordsOf(s[1..]), WordsOf(s[1..] + [c]);
    var words := WordsOf(s);
    if !IsSpace(c) && !IsSpace(s[|s| - 1]) {
      LongerFirst(rest, words, [s[0]], c);
    }
  }

  // Put in front of the first word, and one character behind the last.
  lemma {:induction false} LongerFirst(rest: seq<string>, words: seq<string>, front: string, c: char)
    requires rest != [] && words == [front + rest[0]] + rest[1..]
    ensures var more := rest[..|rest| - 1] + [rest[|rest| - 1] + [c]];
            [front + more[0]] + more[1..] == words[..|words| - 1] + [words[|words| - 1] + [c]]
  {
    if |rest| == 1 { assert front + (rest[0] + [c]) == front + rest[0] + [c]; }
  }

  lemma {:induction false} RStripWords(s: string)
    ensures WordsOf(RStrip(s)) == WordsOf(s)
  {
    if s != "" && IsSpace(s[|s| - 1]) {
      RStripWords(s[..|s| - 1]);
      WordsNext(s[..|s| - 1], s[|s| - 1]);
      assert s == s[..|s| - 1] + [s[|s| - 1]];
    }
  }

  // Collapsing leaves the words, and a space for the white space in front of them.
  lemma {:induction false} CollapsedIs(s: string)
    requires s != "" && !IsSpace(s[|s| - 1])
    ensures WordsOf(s) != []
    ensures CollapseSpaces(s) == (if IsSpace(s[0]) then " " else "") + Spaced(WordsOf(s))
  {
    if |s| > 1 {
      var rest := s[1..];
      CollapsedIs(rest);
      hide IsSpace;
      if !IsSpace(s[0]) && !IsSpace(s[1]) {
        var words := WordsOf(rest);
        assert WordsOf(s)[1..] == words[1..];
        assert [s[0]] + Spaced(words) == Spaced(WordsOf(s));
      } else if !IsSpace(s[0]) {
        assert WordsOf(s)[1..] == WordsOf(rest);
        assert Spaced(WordsOf(s)) == [s[0]] + " " + Spaced(WordsOf(rest));
      }
    } else {
      assert s[1..] == "" && s == [s[0]];
      assert CollapseSpaces(s) == [s[0]] + "";
    }
  }

  lemma {:induction false} CollapsedLine(line: string)
    ensures CollapseSpaces(Strip(line)) == Spaced(WordsOf(line))
  {
    RStripWords(line);
    LStripWords(RStrip(line));
    var t := Strip(line);
    LStripParts(RStrip(line));
    if t != "" {
      assert t[|t| - 1] == RStrip(line)[|RStrip(line)| - 1];
      CollapsedIs(t);
    }
  }

  lemma {:induction false} QuoteAt(s: string, i: nat)
    requires i < |s|
    ensures SingleQuotes(s)[i] == if s[i] == '"' then '\'' else s[i]
  {
    if i > 0 { QuoteAt(s[1..], i - 1); }
  }

  // A line as the formatting tier sees it: its words with single spaces, double quotes turned into
  // single ones, and a comma at the end dropped.
  lemma {:induction false} NormalizedLine(line: string)
    ensures var text, r := Spaced(WordsOf(line)), NormalizeLine(line);
            && |r| == (if text != "" && text[|text| - 1] == ',' then |text| - 1 else |text|)
            && forall i {:trigger r[i]} :: 0 <= i < |r| ==> r[i] == if text[i] == '"' then '\'' else text[i]
  {
    CollapsedLine(line);
    var text := Spaced(WordsOf(line));
    var quoted := SingleQuotes(text);
    forall i | 0 <= i < |text|
      ensures quoted[i] == if text[i] == '"' then '\'' else text[i]
    {
      QuoteAt(text, i);
    }
    hide SingleQuotes, CollapseSpaces, Strip, WordsOf, Spaced;
  }

  // A section of the note is its words with single spaces.
  lemma {:induction false} SectionWords(s: string)
    ensures DocsNote.Words(s).0 == Spaced(WordsOf(s))
    ensures DocsNote.Words(s).1 <==> s != "" && IsSpace(s[|s| - 1])
  {
    if s != "" {
      var init, c := s[..|s| - 1], s[|s| - 1];
      SectionWords(init);
      assert s == init + [c];
      hide IsSpace, WordsOf, DocsNote.Words, Spaced;
      SectionNext(s, init, c);
      SpacedNext(init, c);
    }
  }

  lemma {:induction false} SpacedNext(s: string, c: char)
    ensures var text := Spaced(WordsOf(s));
            Spaced(WordsOf(s + [c]))
            == if IsSpace(c) then text
               else text + (if s != "" && IsSpace(s[|s| - 1]) && text != "" then " " else "") + [c]
  {
    WordsNext(s, c);
    NoWords(s);
    var words := WordsOf(s);
    if !IsSpace(c) && s != "" && !IsSpace(s[|s| - 1]) {
      SpacedLonger(words, c);
    } else if !IsSpace(c) {
      SpacedMore(words, [c]);
      assert s == "" ==> words == [];
      if words != [] { SpacedNotEmpty(s); }
    }
    hide IsSpace, WordsOf, Spaced;
  }

  lemma {:induction false} SpacedNotEmpty(s: string)
    requires WordsOf(s) != []
    ensures Spaced(WordsOf(s)) != ""
  {
    NoWords(s);
    hide WordsOf;
  }

  lemma {:induction false} SectionNext(s: string, init: string, c: char)
    requires s == init + [c]
    ensures var (out, gap) := DocsNote.Words(init);
            DocsNote.Words(s)
            == if IsSpace(c) then (out, true) else (out + (if gap && out != "" then " " else "") + [c], false)
  {
    assert s[..|s| - 1] == init;
    hide IsSpace;
  }

  lemma {:induction false} NoWords(s: string)
    ensures Spaced(WordsOf(s)) == "" ==> WordsOf(s) == []
  {
    WordsNotEmpty(s);
    hide WordsOf;
  }

  lemma {:induction false} WordsNotEmpty(s: string)
    ensures forall i {:trigger WordsOf(s)[i]} :: 0 <= i < |WordsOf(s)| ==> WordsOf(s)[i] != ""
  {
    if s != "" { WordsNotEmpty(s[1..]); }
  }

  lemma {:induction false} SpacedLonger(words: seq<string>, c: char)
    requires words != []
    ensures Spaced(words[..|words| - 1] + [words[|words| - 1] + [c]]) == Spaced(words) + [c]
  {
    var longer := words[..|words| - 1] + [words[|words| - 1] + [c]];
    if |words| > 1 {
      SpacedLonger(words[1..], c);
      assert longer[1..] == words[1..][..|words| - 2] + [words[|words| - 1] + [c]];
    }
  }

  lemma {:induction false} SpacedMore(words: seq<string>, word: string)
    ensures Spaced(words + [word]) == if words == [] then word else Spaced(words) + " " + word
  {
    if |words| > 1 {
      SpacedMore(words[1..], word);
      assert (words + [word])[1..] == words[1..] + [word];
    } else if |words| == 1 {
      assert (words + [word])[1..] == [word];
    }
  }

  // What a note shows of a section.
  function Shown(value: Option<string>): string {
    if value.None? || WordsOf(value.value) == [] then "Not supplied." else Spaced(WordsOf(value.value))
  }

  lemma {:induction false} SectionShown(value: Option<string>)
    ensures DocsNote.Section(value) == Shown(value)
  {
    if value.Some? {
      SectionWords(value.value);
      StripHasWords(value.value);
    }
    hide Strip, WordsOf, Spaced;
  }

  lemma {:induction false} StripHasWords(s: string)
    ensures Strip(s) == "" <==> WordsOf(s) == []
  {
    RStripWords(s);
    LStripWords(RStrip(s));
    hide RStrip;
  }

  // The note is always ten lines, whatever its sections contain: the markers, the heading, the plan,
  // and one line for each section.
  lemma {:induction false} NoteLines(id: string, s: DocsNote.Sections)
    requires '\n' !in id
    ensures Split(DocsNote.Block(id, s)) ==
              [DocsNote.StartMarker(id), "## Gardener maintenance note", "",
               "Gardener opened this maintenance PR from plan `" + id + "`.", "",
               "- Goal: " + Shown(s.goal), "- Evidence: " + Shown(s.evidence),
               "- Entropy impact: " + Shown(s.entropy), "- Verification: " + Shown(s.verification),
               DocsNote.EndMarker(id)]
  {
    SectionShown(s.goal);
    SectionShown(s.evidence);
    SectionShown(s.entropy);
    SectionShown(s.verification);
    NoNewlines(id, s);
    hide Shown, Split, Join, DocsNote.Section;
    SplitJoin(DocsNote.BlockLines(id, s));
  }

  predicate OneLine(s: string) {
    '\n' !in s
  }

  lemma {:induction false} OneLineBoth(a: string, b: string)
    ensures OneLine(a + b) <==> OneLine(a) && OneLine(b)
  {
  }

  lemma {:induction false} NoNewlines(id: string, s: DocsNote.Sections)
    requires '\n' !in id
    ensures forall i {:trigger DocsNote.BlockLines(id, s)[i]} ::
              0 <= i < |DocsNote.BlockLines(id, s)| ==> '\n' !in DocsNote.BlockLines(id, s)[i]
  {
    MarkerLines(id);
    PlanLine(id);
    SectionLine("- Goal: ", s.goal);
    SectionLine("- Evidence: ", s.evidence);
    SectionLine("- Entropy impact: ", s.entropy);
    SectionLine("- Verification: ", s.verification);
    assert OneLine("## Gardener maintenance note") && OneLine("");
    var lines := DocsNote.BlockLines(id, s);
    hide DocsNote.Section, DocsNote.StartMarker, DocsNote.EndMarker;
    forall i | 0 <= i < |lines|
      ensures OneLine(lines[i])
    {
      hide OneLine;
    }
  }

  lemma {:induction false} MarkerLines(id: string)
    requires OneLine(id)
    ensures OneLine(DocsNote.StartMarker(id)) && OneLine(DocsNote.EndMarker(id))
  {
  }

  lemma {:induction false} PlanWords()
    ensures OneLine("Gardener opened this ") && OneLine("maintenance PR from plan `") && OneLine("`.")
  {
  }

  lemma {:induction false} PlanHead()
    ensures "Gardener opened this " + "maintenance PR from plan `" == "Gardener opened this maintenance PR from plan `"
  {
    hide *;
  }

  lemma {:induction false} PlanLine(id: string)
    requires OneLine(id)
    ensures OneLine("Gardener opened this maintenance PR from plan `" + id + "`.")
  {
    hide *;
    PlanWords();
    PlanHead();
    OneLineBoth("Gardener opened this ", "maintenance PR from plan `");
    OneLineBoth("Gardener opened this maintenance PR from plan `", id);
    OneLineBoth("Gardener opened this maintenance PR from plan `" + id, "`.");
  }

  lemma {:induction false} SectionLine(head: string, value: Option<string>)
    requires OneLine(head)
    ensures OneLine(head + DocsNote.Section(value))
  {
    OneLineBoth(head, DocsNote.Section(value));
  }
}
