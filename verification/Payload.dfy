/** The final JSON payload of a command's output. */
module Payload {
  // Everything before the payload is log noise.  The search goes backwards for an opening bracket
  // whose value ends exactly at the end of the text; there is at most one.

  import opened Options
  import opened Json
  import JsonText
  import opened Text

  // A reader that knows only quotes, backslashes and bracket depth.
  datatype Mode = Out | In | Esc | Bad
  datatype Reader = Reader(mode: Mode, depth: int)

  function Closer(opener: char): char {
    if opener == '{' then '}' else ']'
  }

  function Read(r: Reader, c: char): Reader {
    match r.mode
    case Out =>
      if c == '"' then Reader(In, r.depth)
      else if c == '\\' then Reader(Bad, r.depth)
      else if IsOpener(c) then Reader(Out, r.depth + 1)
      else if IsCloser(c) then Reader(Out, r.depth - 1)
      else r
    case In =>
      if c == '"' then Reader(Out, r.depth)
      else if c == '\\' then Reader(Esc, r.depth)
      else r
    case Esc => Reader(In, r.depth)
    case Bad => r
  }

  // The reader started outside any string at `i`, after reading up to `j`.
  function At(s: string, i: nat, j: nat): Reader
    requires i <= j <= |s|
    decreases j
  {
    if i == j then Reader(Out, 0) else Read(At(s, i, j - 1), s[j - 1])
  }

  // Read from `i`, the stretch up to `j` opens and closes strings and brackets evenly and never
  // goes below its own level.
  ghost predicate Even(s: string, i: nat, j: nat)
    requires i <= j <= |s|
  {
    && At(s, i, j) == Reader(Out, 0)
    && forall k {:trigger At(s, i, k)} :: i <= k <= j ==> At(s, i, k).mode != Bad && At(s, i, k).depth >= 0
  }

  // Two readings that agree at `j` up to depth agree from there on.
  lemma {:induction false} Continue(s: string, i: nat, j: nat, k: nat)
    requires i <= j <= k <= |s| && At(s, i, j).mode == Out
    ensures At(s, i, k) == Reader(At(s, j, k).mode, At(s, j, k).depth + At(s, i, j).depth)
    decreases k
  {
    if j < k {
      Continue(s, i, j, k - 1);
    }
  }

  lemma {:induction false} EvenConcat(s: string, i: nat, j: nat, k: nat)
    requires i <= j <= k <= |s| && Even(s, i, j) && Even(s, j, k)
    ensures Even(s, i, k)
  {
    forall m | i <= m <= k
      ensures At(s, i, m).mode != Bad && At(s, i, m).depth >= 0
    {
      if j <= m {
        Continue(s, i, j, m);
        assert At(s, j, m).mode != Bad && At(s, j, m).depth >= 0;
      }
    }
    Continue(s, i, j, k);
  }

  predicate IsPlain(c: char) {
    c != '"' && c != '\\' && !IsOpener(c) && !IsCloser(c)
  }

  lemma {:induction false} EvenPlain(s: string, i: nat, j: nat)
    requires i <= j <= |s| && forall k :: i <= k < j ==> IsPlain(s[k])
    ensures Even(s, i, j)
    decreases j
  {
    if i < j {
      EvenPlain(s, i, j - 1);
    }
  }

  // Brackets around an even stretch: even again, and above its own level strictly inside.
  lemma {:induction false} EvenBracket(s: string, i: nat, j: nat)
    requires i + 2 <= j <= |s| && IsOpener(s[i]) && IsCloser(s[j - 1]) && Even(s, i + 1, j - 1)
    ensures Even(s, i, j)
    ensures forall k {:trigger At(s, i, k)} :: i < k < j ==> At(s, i, k).depth >= 1
  {
    assert At(s, i, i) == Reader(Out, 0) && At(s, i, i + 1) == Reader(Out, 1);
    forall k | i < k < j
      ensures At(s, i, k).mode != Bad && At(s, i, k).depth >= 1
    {
      Continue(s, i, i + 1, k);
      assert At(s, i + 1, k).mode != Bad && At(s, i + 1, k).depth >= 0;
    }
    Continue(s, i, i + 1, j - 1);
  }

  lemma {:induction false} EvenBlanks(s: string, i: nat)
    requires i <= |s|
    ensures Even(s, i, SkipBlanks(s, i))
    decreases |s| - i
  {
    if i < |s| && IsBlank(s[i]) {
      EvenPlain(s, i, i + 1);
      EvenBlanks(s, i + 1);
      EvenConcat(s, i, i + 1, SkipBlanks(s, i));
    } else {
      EvenPlain(s, i, i);
    }
  }

  lemma {:induction false} EvenDigits(s: string, i: nat)
    requires i <= |s|
    ensures Even(s, i, SkipDigits(s, i))
    decreases |s| - i
  {
    if i < |s| && IsDigit(s[i]) {
      EvenPlain(s, i, i + 1);
      EvenDigits(s, i + 1);
      EvenConcat(s, i, i + 1, SkipDigits(s, i));
    } else {
      EvenPlain(s, i, i);
    }
  }

  lemma {:induction false} PlainThenDigits(s: string, i: nat, j: nat)
    requires i <= j <= |s| && forall k :: i <= k < j ==> IsPlain(s[k])
    ensures Even(s, i, SkipDigits(s, j))
  {
    EvenPlain(s, i, j);
    EvenDigits(s, j);
    EvenConcat(s, i, j, SkipDigits(s, j));
  }

  lemma {:induction false} EvenExponent(s: string, i: nat)
    requires i <= |s|
    ensures Even(s, i, ScanExponent(s, i))
  {
    EvenPlain(s, i, i);
    if i + 1 < |s| && (s[i] == 'e' || s[i] == 'E') {
      if IsDigit(s[i + 1]) {
        PlainThenDigits(s, i, i + 2);
      } else if i + 2 < |s| && (s[i + 1] == '+' || s[i + 1] == '-') && IsDigit(s[i + 2]) {
        PlainThenDigits(s, i, i + 3);
      }
    }
  }

  lemma {:induction false} EvenNumber(s: string, i: nat)
    requires i <= |s| && ScanNumber(s, i).Some?
    ensures Even(s, i, ScanNumber(s, i).value)
  {
    var d := if i < |s| && s[i] == '-' then i + 1 else i;
    var n := if s[d] == '0' then d + 1 else SkipDigits(s, d + 1);
    if s[d] == '0' { EvenPlain(s, i, n); } else { PlainThenDigits(s, i, d + 1); }
    var f := if n + 1 < |s| && s[n] == '.' && IsDigit(s[n + 1]) then SkipDigits(s, n + 2) else n;
    if f != n { PlainThenDigits(s, n, n + 2); } else { EvenPlain(s, n, n); }
    EvenConcat(s, i, n, f);
    EvenExponent(s, f);
    EvenConcat(s, i, f, ScanExponent(s, f));
  }

  // A string body that starts at `i` inside quotes opened just before.
  lemma {:induction false} StringBody(s: string, o: nat, i: nat)
    requires o < i <= |s| && s[o] == '"' && ScanString(s, i).Some?
    requires At(s, o, i) == Reader(In, 0)
    requires forall k {:trigger At(s, o, k)} :: o <= k <= i ==> At(s, o, k).mode != Bad && At(s, o, k).depth >= 0
    ensures Even(s, o, ScanString(s, i).value)
    decreases |s| - i
  {
    if s[i] == '"' {
    } else if s[i] == '\\' {
      assert At(s, o, i + 1) == Reader(Esc, 0);
      assert At(s, o, i + 2) == Reader(In, 0);
      if s[i + 1] in "\"\\/bfnrt" {
        StringBody(s, o, i + 2);
      } else {
        assert IsHex(s[i + 2]) && IsHex(s[i + 3]) && IsHex(s[i + 4]) && IsHex(s[i + 5]);
        assert At(s, o, i + 3) == Reader(In, 0);
        assert At(s, o, i + 4) == Reader(In, 0);
        assert At(s, o, i + 5) == Reader(In, 0);
        assert At(s, o, i + 6) == Reader(In, 0);
        StringBody(s, o, i + 6);
      }
    } else {
      StringBody(s, o, i + 1);
    }
  }

  lemma {:induction false} EvenString(s: string, o: nat)
    requires o < |s| && s[o] == '"' && ScanString(s, o + 1).Some?
    ensures Even(s, o, ScanString(s, o + 1).value)
  {
    assert At(s, o, o) == Reader(Out, 0) && At(s, o, o + 1) == Reader(In, 0);
    StringBody(s, o, o + 1);
  }

  lemma {:induction false} EvenWord(s: string, i: nat, word: string)
    requires i <= |s| && word != "" && ScanWord(s, i, word).Some?
    requires forall k :: 0 <= k < |word| ==> IsPlain(word[k])
    ensures Even(s, i, i + |word|)
  {
    forall k | i <= k < i + |word|
      ensures IsPlain(s[k])
    {
      assert s[k] == s[i..i + |word|][k - i];
    }
    EvenPlain(s, i, i + |word|);
  }

  lemma {:induction false} EvenScalar(s: string, i: nat)
    requires i < |s| && ScanScalar(s, i).Some?
    ensures Even(s, i, ScanScalar(s, i).value)
  {
    if s[i] == 'n' {
      EvenWord(s, i, "null");
    } else if s[i] == 't' {
      EvenWord(s, i, "true");
    } else if s[i] == 'f' {
      EvenWord(s, i, "false");
    } else if s[i] == 'N' {
      EvenWord(s, i, "NaN");
    } else if s[i] == 'I' {
      EvenWord(s, i, "Infinity");
    } else if StartsAt(s, i, "-Infinity") {
      EvenWord(s, i, "-Infinity");
    } else {
      EvenNumber(s, i);
    }
  }

  // Every decoded value is an even stretch.
  lemma {:induction false} EvenValue(s: string, i: nat)
    requires i <= |s| && ScanValue(s, i).Some?
    ensures Even(s, i, ScanValue(s, i).value)
    ensures IsOpener(s[i]) ==> forall k {:trigger At(s, i, k)} :: i < k < ScanValue(s, i).value ==>
              At(s, i, k).depth >= 1
    decreases |s| - i, 2
  {
    if s[i] == '"' {
      EvenString(s, i);
    } else if IsOpener(s[i]) {
      var e := ScanValue(s, i).value;
      EvenContents(s, i);
      EvenBracket(s, i, e);
    } else {
      EvenScalar(s, i);
    }
  }

  lemma {:induction false} EvenContents(s: string, i: nat)
    requires i <= |s| && ScanValue(s, i).Some? && IsOpener(s[i])
    ensures var e := ScanValue(s, i).value; i + 2 <= e && s[e - 1] == Closer(s[i]) && Even(s, i + 1, e - 1)
    decreases |s| - i, 1
  {
    var e := ScanValue(s, i).value;
    var j := SkipBlanks(s, i + 1);
    EvenBlanks(s, i + 1);
    if j < |s| && s[j] == Closer(s[i]) {
      assert e == j + 1;
    } else {
      if s[i] == '{' { EvenMembers(s, j, e); } else { EvenItems(s, j, e); }
      EvenConcat(s, i + 1, j, e - 1);
    }
  }

  // The rest of an array is even up to its closing bracket.
  lemma {:induction false} EvenItems(s: string, i: nat, e: nat)
    requires i <= |s| && ScanItems(s, i) == Some(e)
    ensures i < e <= |s| && s[e - 1] == ']' && Even(s, i, e - 1)
    decreases |s| - i, 4
  {
    var v, j, n := JsonText.ItemsEnd(s, i, e);
    hide *;
    EvenUpTo(s, i, v, j);
    if s[j] == ',' {
      EvenItems(s, n, e);
      EvenOn(s, i, j, n, e - 1);
    }
  }

  // An item and the blanks behind it.
  lemma {:induction false} EvenUpTo(s: string, i: nat, v: nat, j: nat)
    requires i < v <= j <= |s| && ScanValue(s, i) == Some(v) && j == SkipBlanks(s, v)
    ensures Even(s, i, j)
    decreases |s| - i, 3
  {
    hide *;
    EvenValue(s, i);
    EvenBlanks(s, v);
    EvenConcat(s, i, v, j);
  }

  // On behind a comma.
  lemma {:induction false} EvenOn(s: string, i: nat, j: nat, n: nat, e: nat)
    requires i <= j < |s| && Even(s, i, j) && s[j] == ',' && n == SkipBlanks(s, j + 1)
    requires n <= e <= |s| && Even(s, n, e)
    ensures Even(s, i, e)
  {
    hide Even, SkipBlanks;
    NextItem(s, i, j);
    EvenConcat(s, i, n, e);
  }

  lemma {:induction false} NextItem(s: string, i: nat, j: nat)
    requires i <= j < |s| && IsPlain(s[j]) && Even(s, i, j)
    ensures Even(s, i, SkipBlanks(s, j + 1))
  {
    EvenPlain(s, j, j + 1);
    EvenConcat(s, i, j, j + 1);
    EvenBlanks(s, j + 1);
    EvenConcat(s, i, j + 1, SkipBlanks(s, j + 1));
  }

  lemma {:induction false} EvenMember(s: string, i: nat)
    requires i <= |s| && ScanMember(s, i).Some?
    ensures Even(s, i, ScanMember(s, i).value)
    decreases |s| - i, 3
  {
    assert IsPlain(':');
    hide *;
    var k, c, u := JsonText.MemberEnd(s, i);
    EvenString(s, i);
    EvenBlanks(s, k);
    EvenConcat(s, i, k, c);
    NextItem(s, i, c);
    EvenValue(s, u);
    EvenConcat(s, i, u, ScanValue(s, u).value);
  }

  lemma {:induction false} EvenMembers(s: string, i: nat, e: nat)
    requires i <= |s| && ScanMembers(s, i) == Some(e)
    ensures i < e <= |s| && s[e - 1] == '}' && Even(s, i, e - 1)
    decreases |s| - i, 4
  {
    var v, j, n := JsonText.MembersEnd(s, i, e);
    hide *;
    EvenMember(s, i);
    EvenBlanks(s, v);
    EvenConcat(s, i, v, j);
    if s[j] == ',' {
      EvenMembers(s, n, e);
      EvenOn(s, i, j, n, e - 1);
    }
  }

  // Inside a string of the reading from `i`, the reading from `j` is in the opposite quote phase
  // for as long as neither meets a backslash outside its strings.
  lemma {:induction false} OppositePhase(s: string, i: nat, j: nat, k: nat)
    requires i <= j < k <= |s| && IsOpener(s[j])
    requires At(s, i, j).mode == In || At(s, i, j).mode == Esc
    requires forall m {:trigger At(s, i, m)} :: i <= m <= k ==> At(s, i, m).mode != Bad
    requires forall m {:trigger At(s, j, m)} :: j <= m <= k ==> At(s, j, m).mode != Bad
    ensures (At(s, i, k).mode == In && At(s, j, k).mode == Out) || (At(s, i, k).mode == Out && At(s, j, k).mode == In)
    decreases k
  {
    assert At(s, i, k).mode != Bad && At(s, j, k).mode != Bad;
    if k == j + 1 {
      assert At(s, j, j) == Reader(Out, 0);
    } else {
      OppositePhase(s, i, j, k - 1);
    }
  }

  // What the search looks for: an opening bracket whose value, decoded from there, ends with
  // the text.
  predicate EndsText(s: string, i: nat) {
    i < |s| && IsOpener(s[i]) && ScanValue(s[i..], 0) == Some(|s| - i)
  }

  lemma {:induction false} ReadSuffix(s: string, i: nat, k: nat)
    requires i + k <= |s|
    ensures At(s[i..], 0, k) == At(s, i, i + k)
    decreases k
  {
    if k > 0 {
      ReadSuffix(s, i, k - 1);
    }
  }

  // A candidate at `i`, as the reader sees it.
  lemma {:induction false} CandidateReading(s: string, i: nat)
    requires EndsText(s, i)
    ensures Even(s, i, |s|)
    ensures forall k {:trigger At(s, i, k)} :: i < k < |s| ==> At(s, i, k).depth >= 1
    ensures s[|s| - 1] == Closer(s[i])
  {
    EvenValue(s[i..], 0);
    EvenContents(s[i..], 0);
    forall k | i <= k <= |s|
      ensures At(s, i, k) == At(s[i..], 0, k - i)
    {
      ReadSuffix(s, i, k - i);
    }
  }

  lemma {:induction false} NotNested(s: string, i: nat, j: nat)
    requires EndsText(s, i) && i < j
    ensures !EndsText(s, j)
  {
    if EndsText(s, j) {
      CandidateReading(s, i);
      CandidateReading(s, j);
      assert At(s, i, j).mode != Bad && At(s, i, j).depth >= 1;
      if At(s, i, j).mode == Out {
        Continue(s, i, j, |s|);
      } else {
        OppositePhase(s, i, j, |s|);
      }
    }
  }

  // There is at most one candidate: a later one inside a string reads in the opposite quote
  // phase, and one inside the outer value closes before the outer bracket does.
  lemma {:induction false} PayloadUnique(s: string, i: nat, j: nat)
    requires EndsText(s, i) && EndsText(s, j)
    ensures i == j
  {
    if i < j {
      NotNested(s, i, j);
    } else if j < i {
      NotNested(s, j, i);
    }
  }

  // Last position before `end` holding `c`.
  method RFind(s: string, c: char, end: nat) returns (r: Option<nat>)
    requires end <= |s|
    ensures r.Some? ==> r.value < end && s[r.value] == c && forall k :: r.value < k < end ==> s[k] != c
    ensures r.None? ==> forall k :: 0 <= k < end ==> s[k] != c
  {
    var i := end;
    while i > 0
      invariant 0 <= i <= end && forall k :: i <= k < end ==> s[k] != c
    {
      i := i - 1;
      if s[i] == c { return Some(i); }
    }
    r := None;
  }

  lemma {:induction false} PayloadAfterNoise(noise: string, payload: string)
    requires EndsText(payload, 0)
    ensures EndsText(noise + payload, |noise|)
  {
    assert payload[0..] == payload && (noise + payload)[|noise|..] == payload;
  }

  // White space after a payload is all that stripping takes off.
  lemma {:induction false} StripKeepsPayload(noise: string, payload: string, blanks: string)
    requires EndsText(payload, 0) && AllSpace(blanks)
    ensures RStrip(noise + payload + blanks) == noise + payload
  {
    CandidateReading(payload, 0);
    assert !IsSpace(payload[|payload| - 1]);
    RStripAppend(noise + payload, blanks);
  }

  // Whatever was logged before a payload, the payload is the one and only candidate.
  lemma {:induction false} NoiseIsIgnored(noise: string, payload: string, i: nat)
    requires EndsText(payload, 0)
    ensures EndsText(noise + payload, i) <==> i == |noise|
  {
    PayloadAfterNoise(noise, payload);
    if EndsText(noise + payload, i) { PayloadUnique(noise + payload, i, |noise|); }
  }

  // ---- The payload in the output -------------------------------------------------------------------

  // A written array or object stands at `k`, and behind it there is only white space.
  ghost predicate PayloadAt(stdout: string, k: nat, v: JsonText.Value) {
    && JsonText.ValueOk(v) && JsonText.IsContainer(v)
    && JsonText.Holds(stdout, k, JsonText.Render(v))
    && AllSpace(stdout[k + |JsonText.Render(v)|..])
  }

  // Log noise, a value, and white space.
  lemma {:induction false} LoggedPayload(noise: string, v: JsonText.Value, blanks: string)
    requires JsonText.ValueOk(v) && JsonText.IsContainer(v) && AllSpace(blanks)
    ensures PayloadAt(noise + JsonText.Render(v) + blanks, |noise|, v)
  {
    hide JsonText.ValueOk, JsonText.IsContainer, JsonText.Render;
    var text := JsonText.Render(v);
    var stdout := noise + text + blanks;
    assert stdout[|noise|..|noise| + |text|] == text && stdout[|noise| + |text|..] == blanks;
  }

  lemma {:induction false} EndsTextWith(s: string, i: nat) returns (v: JsonText.Value)
    requires EndsText(s, i)
    ensures JsonText.ValueOk(v) && JsonText.IsContainer(v) && s[i..] == JsonText.Render(v)
  {
    var rest := s[i..];
    JsonText.ContainerIff(rest, 0, |rest|);
    hide JsonText.ValueOk, JsonText.IsContainer, JsonText.Render;
    v :| JsonText.ValueOk(v) && JsonText.IsContainer(v) && JsonText.Spans(rest, 0, JsonText.Render(v), |rest|);
    assert rest[0..|rest|] == rest;
  }

  lemma {:induction false} RenderedEndsText(v: JsonText.Value)
    requires JsonText.ValueOk(v) && JsonText.IsContainer(v)
    ensures EndsText(JsonText.Render(v), 0)
  {
    var text := JsonText.Render(v);
    JsonText.FirstChar(v);
    JsonText.ContainerIff(text, 0, |text|);
    hide JsonText.ValueOk, JsonText.IsContainer, JsonText.Render, ScanValue;
    assert text[0..|text|] == text && text[0..] == text;
    assert JsonText.Spans(text, 0, JsonText.Render(v), |text|);
  }

  // A payload of the output is a hit in the stripped output.
  lemma {:induction false} PayloadIsHit(stdout: string, k: nat, v: JsonText.Value)
    requires PayloadAt(stdout, k, v)
    ensures EndsText(RStrip(stdout), k)
  {
    hide JsonText.ValueOk, JsonText.IsContainer, JsonText.Render, EndsText, RStrip;
    var text := JsonText.Render(v);
    var noise, blanks := stdout[..k], stdout[k + |text|..];
    assert stdout == noise + text + blanks;
    RenderedEndsText(v);
    StripKeepsPayload(noise, text, blanks);
    PayloadAfterNoise(noise, text);
  }

  lemma {:induction false} HitIsPayload(stdout: string, k: nat) returns (v: JsonText.Value)
    requires EndsText(RStrip(stdout), k)
    ensures PayloadAt(stdout, k, v)
  {
    var trimmed := RStrip(stdout);
    RStripParts(stdout);
    v := EndsTextWith(trimmed, k);
    hide JsonText.ValueOk, JsonText.IsContainer, JsonText.Render, RStrip, AllSpace, ScanValue;
    assert k + |JsonText.Render(v)| == |trimmed|;
    assert stdout[k..|trimmed|] == trimmed[k..];
  }

  // The search finds the one payload the output has, and fails when it has none.
  lemma {:induction false} OnePayload(stdout: string, index: Option<nat>)
    requires var trimmed := RStrip(stdout);
             if index.Some? then EndsText(trimmed, index.value)
             else forall i: nat :: i < |trimmed| ==> !EndsText(trimmed, i)
    ensures index.Some? ==> exists v {:trigger PayloadAt(stdout, index.value, v)} :: PayloadAt(stdout, index.value, v)
    ensures forall k: nat, v {:trigger PayloadAt(stdout, k, v)} :: PayloadAt(stdout, k, v) ==> index == Some(k)
  {
    var trimmed := RStrip(stdout);
    forall k: nat, v | PayloadAt(stdout, k, v)
      ensures index == Some(k)
    {
      PayloadIsHit(stdout, k, v);
      assert k < |trimmed|;
      if index.Some? { PayloadUnique(trimmed, k, index.value); }
    }
    hide PayloadAt, EndsText, RStrip;
    if index.Some? {
      var v := HitIsPayload(stdout, index.value);
    }
  }

  // The position of the payload in the stripped output, or `None` where the source raises.
  method FinalPayload(stdout: string) returns (trimmed: string, index: Option<nat>)
    ensures trimmed == RStrip(stdout)
    ensures index.Some? ==> EndsText(trimmed, index.value)
    ensures index.None? ==> forall i: nat :: i < |trimmed| ==> !EndsText(trimmed, i)
    ensures index.Some? ==> exists v {:trigger PayloadAt(stdout, index.value, v)} :: PayloadAt(stdout, index.value, v)
    ensures forall k: nat, v {:trigger PayloadAt(stdout, k, v)} :: PayloadAt(stdout, k, v) ==> index == Some(k)
  {
    trimmed := RStrip(stdout);
    index := Search(trimmed);
    OnePayload(stdout, index);
  }

  // The source's loop.
  method Search(trimmed: string) returns (index: Option<nat>)
    ensures index.Some? ==> EndsText(trimmed, index.value)
    ensures index.None? ==> forall i: nat :: i < |trimmed| ==> !EndsText(trimmed, i)
  {
    forall i | 0 <= i < |trimmed| && EndsText(trimmed, i)
      ensures trimmed[|trimmed| - 1] == Closer(trimmed[i])
    {
      CandidateReading(trimmed, i);
    }
    if trimmed == "" || !IsCloser(trimmed[|trimmed| - 1]) {
      return None;
    }
    var opener := if trimmed[|trimmed| - 1] == ']' then '[' else '{';
    var searchEnd: nat := |trimmed|;
    while true
      invariant 0 <= searchEnd <= |trimmed|
      invariant forall i: nat :: searchEnd <= i < |trimmed| ==> !EndsText(trimmed, i)
      decreases searchEnd
    {
      index := RFind(trimmed, opener, searchEnd);
      if index.None? { return; }
      var end := ScanValue(trimmed[index.value..], 0);
      if end.Some? && index.value + end.value == |trimmed| { return; }
      searchEnd := index.value;
    }
  }
}
