/**
 Strings as the source's Python sees them: searching, stripping, splitting into lines and joining.

 White space is what Python's `str.isspace` accepts.  Positions count characters from 0, and a search
 that finds nothing gives no position where Python gives -1.
 */
module Text {
  import opened Options

  // Python's white space.
  predicate IsSpace(c: char) {
    var n := c as int;
    9 <= n <= 13 || 28 <= n <= 32 || n == 0x85 || n == 0xA0 || n == 0x1680 || 0x2000 <= n <= 0x200A
    || n == 0x2028 || n == 0x2029 || n == 0x202F || n == 0x205F || n == 0x3000
  }

  ghost predicate AllSpace(s: string) {
    forall k :: 0 <= k < |s| ==> IsSpace(s[k])
  }

  ghost predicate IsRStripped(s: string) {
    s == "" || !IsSpace(s[|s| - 1])
  }

  function RStrip(s: string): (r: string)
    ensures |r| <= |s| && IsRStripped(r)
  {
    if s != "" && IsSpace(s[|s| - 1]) then RStrip(s[..|s| - 1]) else s
  }

  // Stripping takes off white space only.
  lemma {:induction false} RStripParts(s: string)
    ensures RStrip(s) == s[..|RStrip(s)|] && AllSpace(s[|RStrip(s)|..])
  {
    if s != "" && IsSpace(s[|s| - 1]) {
      var init := s[..|s| - 1];
      RStripParts(init);
      assert s[|RStrip(s)|..] == init[|RStrip(s)|..] + [s[|s| - 1]];
    }
  }

  function LStrip(s: string): (r: string)
    ensures |r| <= |s| && (r == "" || !IsSpace(r[0]))
  {
    if s != "" && IsSpace(s[0]) then LStrip(s[1..]) else s
  }

  lemma {:induction false} LStripParts(s: string)
    ensures LStrip(s) == s[|s| - |LStrip(s)|..] && AllSpace(s[..|s| - |LStrip(s)|])
  {
    if s != "" && IsSpace(s[0]) {
      LStripParts(s[1..]);
      var n := |s| - |LStrip(s)|;
      assert s[..n] == [s[0]] + s[1..][..n - 1];
    }
  }

  function Strip(s: string): string {
    LStrip(RStrip(s))
  }

  // Drop leading newlines.
  function LStripNewlines(s: string): (r: string)
    ensures |r| <= |s| && (r == "" || r[0] != '\n')
  {
    if s != "" && s[0] == '\n' then LStripNewlines(s[1..]) else s
  }

  lemma {:induction false} RStripAppend(s: string, w: string)
    requires IsRStripped(s) && AllSpace(w)
    ensures RStrip(s + w) == s
    decreases |w|
  {
    if w != "" {
      assert (s + w)[..|s + w| - 1] == s + w[..|w| - 1];
      RStripAppend(s, w[..|w| - 1]);
    } else {
      assert s + w == s;
    }
  }

  predicate OccursAt(s: string, sub: string, i: nat) {
    i + |sub| <= |s| && forall j {:trigger sub[j]} :: 0 <= j < |sub| ==> s[i + j] == sub[j]
  }

  lemma {:induction false} OccursSlice(s: string, sub: string, i: nat)
    ensures OccursAt(s, sub, i) <==> i + |sub| <= |s| && s[i..i + |sub|] == sub
  {
    if i + |sub| <= |s| && s[i..i + |sub|] == sub {
      forall j | 0 <= j < |sub|
        ensures s[i + j] == sub[j]
      {
        assert s[i..i + |sub|][j] == sub[j];
      }
    }
  }

  // First position at or after `from` where `sub` occurs.
  function Find(s: string, sub: string, from: nat): (r: Option<nat>)
    ensures r.Some? ==> from <= r.value && OccursAt(s, sub, r.value)
    ensures r.Some? ==> forall k: nat :: from <= k < r.value ==> !OccursAt(s, sub, k)
    ensures r.None? ==> forall k: nat :: from <= k ==> !OccursAt(s, sub, k)
    decreases |s| - from
  {
    if from + |sub| > |s| then None
    else if OccursAt(s, sub, from) then Some(from)
    else Find(s, sub, from + 1)
  }

  lemma {:induction false} FoundAt(s: string, sub: string, from: nat, i: nat)
    requires from <= i && OccursAt(s, sub, i) && forall k: nat :: from <= k < i ==> !OccursAt(s, sub, k)
    ensures Find(s, sub, from) == Some(i)
  {
  }

  // Lines joined by newlines.
  function Join(lines: seq<string>): string {
    if lines == [] then ""
    else if |lines| == 1 then lines[0]
    else lines[0] + "\n" + Join(lines[1..])
  }

  // Never empty: a text without newlines is one line.
  function Split(s: string): (r: seq<string>)
    ensures r != []
  {
    if s == "" then [""]
    else
      var rest := Split(s[1..]);
      if s[0] == '\n' then [""] + rest else [[s[0]] + rest[0]] + rest[1..]
  }

  lemma {:induction false} JoinSplit(s: string)
    ensures Join(Split(s)) == s
    ensures forall i :: 0 <= i < |Split(s)| ==> '\n' !in Split(s)[i]
  {
    if s != "" {
      JoinSplit(s[1..]);
      var rest := Split(s[1..]);
      if s[0] != '\n' {
        assert Split(s)[1..] == rest[1..];
      } else {
        assert Split(s)[1..] == rest;
      }
    }
  }

  // A newline between two texts keeps their lines apart.
  lemma {:induction false} SplitConcat(a: string, b: string)
    ensures Split(a + "\n" + b) == Split(a) + Split(b)
  {
    if a == "" {
      assert (a + "\n" + b)[1..] == b && Split(a) == [""];
    } else {
      FirstChar(a, "\n" + b);
      assert a + "\n" + b == a + ("\n" + b) && a[1..] + "\n" + b == a[1..] + ("\n" + b);
      SplitFirst(a);
      SplitFirst(a + "\n" + b);
      hide Split;
      SplitConcat(a[1..], b);
      MoreLines(a[0], Split(a[1..]), Split(b));
    }
  }

  lemma {:induction false} FirstChar(a: string, b: string)
    requires a != ""
    ensures (a + b)[0] == a[0] && (a + b)[1..] == a[1..] + b
  {
  }

  // The lines of a text, with one character more in front of it.
  function InFront(c: char, lines: seq<string>): seq<string>
    requires lines != []
  {
    if c == '\n' then [""] + lines else [[c] + lines[0]] + lines[1..]
  }

  lemma {:induction false} SplitFirst(s: string)
    requires s != ""
    ensures Split(s) == InFront(s[0], Split(s[1..]))
  {
  }

  lemma {:induction false} MoreLines(c: char, a: seq<string>, b: seq<string>)
    requires a != []
    ensures InFront(c, a + b) == InFront(c, a) + b
  {
    assert (a + b)[1..] == a[1..] + b;
  }

  lemma {:induction false} SplitOneLine(line: string)
    requires '\n' !in line
    ensures Split(line) == [line]
  {
    if line != "" {
      SplitOneLine(line[1..]);
      assert [line[0]] + line[1..] == line;
    }
  }

  // Lines without newlines are what their joined text splits into.
  lemma {:induction false} SplitJoin(lines: seq<string>)
    requires lines != [] && forall i {:trigger lines[i]} :: 0 <= i < |lines| ==> '\n' !in lines[i]
    ensures Split(Join(lines)) == lines
  {
    SplitOneLine(lines[0]);
    if |lines| > 1 {
      SplitJoin(lines[1..]);
      SplitConcat(lines[0], Join(lines[1..]));
    } else {
      assert lines == [lines[0]];
    }
  }

  lemma {:induction false} JoinConcat(a: seq<string>, b: seq<string>)
    requires a != [] && b != []
    ensures Join(a + b) == Join(a) + "\n" + Join(b)
  {
    if |a| > 1 {
      JoinConcat(a[1..], b);
      assert (a + b)[1..] == a[1..] + b;
    } else {
      assert (a + b)[1..] == b;
    }
  }

  // A window of lines reads as a substring of the text.
  lemma {:induction false} WindowIsSubstring(lines: seq<string>, i: nat, n: nat) returns (before: string, after: string)
    requires n > 0 && i + n <= |lines|
    ensures Join(lines) == before + Join(lines[i..i + n]) + after
    ensures before == BeforeWindow(lines, i) && after == AfterWindow(lines, i + n)
  {
    before, after := BeforeWindow(lines, i), AfterWindow(lines, i + n);
    var rest := lines[i..];
    assert rest[..n] == lines[i..i + n] && rest[n..] == lines[i + n..];
    JoinParts(lines, i);
    JoinParts(rest, n);
    if i == 0 { assert rest == lines; }
  }

  function BeforeWindow(lines: seq<string>, i: nat): string
    requires i <= |lines|
  {
    if i == 0 then "" else Join(lines[..i]) + "\n"
  }

  function AfterWindow(lines: seq<string>, i: nat): string
    requires i <= |lines|
  {
    if i == |lines| then "" else "\n" + Join(lines[i..])
  }

  lemma {:induction false} JoinParts(lines: seq<string>, n: nat)
    requires n <= |lines|
    ensures n > 0 ==> Join(lines) == Join(lines[..n]) + AfterWindow(lines, n)
    ensures n < |lines| ==> Join(lines) == BeforeWindow(lines, n) + Join(lines[n..])
  {
    assert lines == lines[..n] + lines[n..];
    if 0 < n < |lines| {
      JoinConcat(lines[..n], lines[n..]);
    } else if n > 0 {
      assert lines[..n] == lines;
    }
  }
}
