/**
 JSON values and how they are written: the texts of RFC 8259, with any white space between tokens, and
 with the literals NaN, Infinity and -Infinity, as trees and their renderings.

 The trees know nothing of scanning.  Two directions tie them to the scanner: it goes over every
 rendered value to its end, and whatever it accepts is the rendering of a value.
 */
module JsonText {
  import opened Options
  import opened Json

  // ---- Trees ---------------------------------------------------------------------------------------

  datatype Char = Plain(c: char) | Escaped(c: char) | Unicode(hex: string)

  datatype Number = Number(minus: bool, whole: string, fraction: string, exponent: Option<Exponent>)
  datatype Exponent = Exponent(e: char, sign: string, digits: string)

  datatype Value =
    | Word(text: string)
    | Num(number: Number)
    | Str(chars: seq<Char>)
    | EmptyArray(inside: string)
    | EmptyObject(inside: string)
    | Array(before: string, items: Items)
    | Object(before: string, members: Members)

  // The white space behind each item and before the next one is part of the tree.
  datatype Items = LastItem(value: Value, after: string)
                 | MoreItems(value: Value, after: string, before: string, rest: Items)

  datatype Member = Member(key: seq<Char>, beforeColon: string, afterColon: string, value: Value)
  datatype Members = LastMember(member: Member, after: string)
                   | MoreMembers(member: Member, after: string, before: string, rest: Members)

  // ---- What they look like -------------------------------------------------------------------------

  function CharText(c: Char): string {
    match c
    case Plain(c) => [c]
    case Escaped(c) => "\\" + [c]
    case Unicode(hex) => "\\u" + hex
  }

  function CharsText(chars: seq<Char>): string {
    if chars == [] then "" else CharText(chars[0]) + CharsText(chars[1..])
  }

  function StringText(chars: seq<Char>): string {
    "\"" + (CharsText(chars) + "\"")
  }

  function FractionText(fraction: string): string {
    if fraction == "" then "" else "." + fraction
  }

  function ExponentText(e: Option<Exponent>): string {
    if e.None? then "" else [e.value.e] + (e.value.sign + e.value.digits)
  }

  function NumberText(n: Number): string {
    (if n.minus then "-" else "") + (n.whole + (FractionText(n.fraction) + ExponentText(n.exponent)))
  }

  function Render(v: Value): string {
    match v
    case Word(text) => text
    case Num(n) => NumberText(n)
    case Str(chars) => StringText(chars)
    case EmptyArray(inside) => "[" + (inside + "]")
    case EmptyObject(inside) => "{" + (inside + "}")
    case Array(before, items) => "[" + (before + ItemsText(items))
    case Object(before, members) => "{" + (before + MembersText(members))
  }

  function ItemsText(items: Items): string {
    match items
    case LastItem(v, after) => Render(v) + (after + "]")
    case MoreItems(v, after, before, rest) => Render(v) + (after + ("," + (before + ItemsText(rest))))
  }

  function MemberText(m: Member): string {
    StringText(m.key) + (m.beforeColon + (":" + (m.afterColon + Render(m.value))))
  }

  function MembersText(members: Members): string {
    match members
    case LastMember(m, after) => MemberText(m) + (after + "}")
    case MoreMembers(m, after, before, rest) => MemberText(m) + (after + ("," + (before + MembersText(rest))))
  }

  // ---- Which trees are JSON ------------------------------------------------------------------------

  predicate Blank(s: string) {
    forall i {:trigger s[i]} :: 0 <= i < |s| ==> s[i] in {' ', '\t', '\n', '\r'}
  }

  predicate Digits(s: string) {
    forall i {:trigger s[i]} :: 0 <= i < |s| ==> '0' <= s[i] <= '9'
  }

  predicate Hex(s: string) {
    forall i {:trigger s[i]} :: 0 <= i < |s| ==> '0' <= s[i] <= '9' || 'a' <= s[i] <= 'f' || 'A' <= s[i] <= 'F'
  }

  predicate CharOk(c: Char) {
    match c
    case Plain(c) => c >= ' ' && c != '"' && c != '\\'
    case Escaped(c) => c in ['"', '\\', '/', 'b', 'f', 'n', 'r', 't']
    case Unicode(hex) => |hex| == 4 && Hex(hex)
  }

  predicate CharsOk(chars: seq<Char>) {
    forall i {:trigger chars[i]} :: 0 <= i < |chars| ==> CharOk(chars[i])
  }

  predicate ExponentOk(e: Exponent) {
    e.e in {'e', 'E'} && e.sign in {"", "+", "-"} && e.digits != "" && Digits(e.digits)
  }

  // No leading zeros.
  predicate NumberOk(n: Number) {
    && n.whole != "" && Digits(n.whole) && (n.whole[0] == '0' ==> |n.whole| == 1)
    && Digits(n.fraction) && (n.exponent.Some? ==> ExponentOk(n.exponent.value))
  }

  predicate ValueOk(v: Value) {
    match v
    case Word(text) => text in {"null", "true", "false", "NaN", "Infinity", "-Infinity"}
    case Num(n) => NumberOk(n)
    case Str(chars) => CharsOk(chars)
    case EmptyArray(inside) => Blank(inside)
    case EmptyObject(inside) => Blank(inside)
    case Array(before, items) => Blank(before) && ItemsOk(items)
    case Object(before, members) => Blank(before) && MembersOk(members)
  }

  predicate ItemsOk(items: Items) {
    match items
    case LastItem(v, after) => ValueOk(v) && Blank(after)
    case MoreItems(v, after, before, rest) => ValueOk(v) && Blank(after) && Blank(before) && ItemsOk(rest)
  }

  predicate MemberOk(m: Member) {
    CharsOk(m.key) && Blank(m.beforeColon) && Blank(m.afterColon) && ValueOk(m.value)
  }

  predicate MembersOk(members: Members) {
    match members
    case LastMember(m, after) => MemberOk(m) && Blank(after)
    case MoreMembers(m, after, before, rest) => MemberOk(m) && Blank(after) && Blank(before) && MembersOk(rest)
  }

  // An array or an object.
  predicate IsContainer(v: Value) {
    v.EmptyArray? || v.EmptyObject? || v.Array? || v.Object?
  }

  // ---- Texts in place ------------------------------------------------------------------------------

  // The text stands at `i`.
  predicate Holds(s: string, i: nat, text: string) {
    i + |text| <= |s| && s[i..i + |text|] == text
  }

  lemma {:induction false} HoldsBoth(s: string, i: nat, a: string, b: string)
    ensures Holds(s, i, a + b) <==> Holds(s, i, a) && Holds(s, i + |a|, b)
  {
    if i + |a| + |b| <= |s| {
      assert s[i..i + |a| + |b|] == s[i..i + |a|] + s[i + |a|..i + |a| + |b|];
      if s[i..i + |a| + |b|] == a + b {
        assert s[i..i + |a|] == (a + b)[..|a|] && s[i + |a|..i + |a| + |b|] == (a + b)[|a|..];
      }
    }
  }

  lemma {:induction false} HoldsOne(s: string, i: nat, c: char)
    ensures Holds(s, i, [c]) <==> i < |s| && s[i] == c
  {
    if i < |s| { assert s[i..i + 1] == [s[i]]; }
  }

  lemma {:induction false} HoldsAt(s: string, i: nat, text: string, k: nat)
    requires Holds(s, i, text) && k < |text|
    ensures s[i + k] == text[k]
  {
    assert s[i..i + |text|][k] == s[i + k];
  }

  lemma {:induction false} HoldsTail(s: string, i: nat, text: string)
    requires Holds(s, i, text) && text != ""
    ensures s[i] == text[0] && Holds(s, i + 1, text[1..])
  {
    assert text == [text[0]] + text[1..];
    HoldsBoth(s, i, [text[0]], text[1..]);
    HoldsOne(s, i, text[0]);
  }

  // ---- Rendered values are scanned -----------------------------------------------------------------

  predicate NoBlankAt(s: string, i: nat) {
    i >= |s| || !IsBlank(s[i])
  }

  predicate NoDigitAt(s: string, i: nat) {
    i >= |s| || !IsDigit(s[i])
  }

  lemma {:induction false} BlanksSkipped(s: string, i: nat, blanks: string)
    requires i <= |s| && Holds(s, i, blanks) && Blank(blanks) && NoBlankAt(s, i + |blanks|)
    ensures SkipBlanks(s, i) == i + |blanks|
    decreases |blanks|
  {
    if blanks != "" {
      HoldsTail(s, i, blanks);
      assert blanks[0] in {' ', '\t', '\n', '\r'};
      forall k | 0 <= k < |blanks[1..]|
        ensures blanks[1..][k] in {' ', '\t', '\n', '\r'}
      {
        assert blanks[1..][k] == blanks[k + 1];
      }
      BlanksSkipped(s, i + 1, blanks[1..]);
    }
  }

  lemma {:induction false} DigitsSkipped(s: string, i: nat, digits: string)
    requires i <= |s| && Holds(s, i, digits) && Digits(digits) && NoDigitAt(s, i + |digits|)
    ensures SkipDigits(s, i) == i + |digits|
    decreases |digits|
  {
    if digits != "" {
      HoldsTail(s, i, digits);
      assert '0' <= digits[0] <= '9';
      forall k | 0 <= k < |digits[1..]|
        ensures '0' <= digits[1..][k] <= '9'
      {
        assert digits[1..][k] == digits[k + 1];
      }
      DigitsSkipped(s, i + 1, digits[1..]);
    }
  }

  lemma {:induction false} CharsScanned(s: string, i: nat, chars: seq<Char>)
    requires i <= |s| && CharsOk(chars) && Holds(s, i, CharsText(chars) + "\"")
    ensures ScanString(s, i) == Some(i + |CharsText(chars)| + 1)
    decreases |chars|
  {
    hide *;
    if chars == [] {
      NoCharText();
      QuoteScanned(s, i);
    } else {
      var c := CharText(chars[0]);
      RestOk(chars);
      FirstCharText(chars);
      HoldsBoth(s, i, c, CharsText(chars[1..]) + "\"");
      HoldsInside(s, i, c);
      CharsScanned(s, i + |c|, chars[1..]);
      OneCharScanned(s, i, chars[0]);
    }
  }

  lemma {:induction false} NoCharText()
    ensures CharsText([]) + "\"" == "\"" && |CharsText([])| == 0
  {
  }

  lemma {:induction false} QuoteScanned(s: string, i: nat)
    requires Holds(s, i, "\"")
    ensures i < |s| && ScanString(s, i) == Some(i + 1)
  {
    HoldsOne(s, i, '"');
    hide Holds;
  }

  lemma {:induction false} FirstCharText(chars: seq<Char>)
    requires chars != []
    ensures CharsText(chars) + "\"" == CharText(chars[0]) + (CharsText(chars[1..]) + "\"")
    ensures |CharsText(chars)| == |CharText(chars[0])| + |CharsText(chars[1..])|
  {
    hide CharText;
  }

  lemma {:induction false} RestOk(chars: seq<Char>)
    requires chars != [] && CharsOk(chars)
    ensures CharOk(chars[0]) && CharsOk(chars[1..])
  {
    hide CharOk;
    assert forall k {:trigger chars[1..][k]} :: 0 <= k < |chars[1..]| ==> chars[1..][k] == chars[k + 1];
  }

  lemma {:induction false} OneCharScanned(s: string, i: nat, c: Char)
    requires i <= |s| && CharOk(c) && Holds(s, i, CharText(c))
    ensures ScanString(s, i) == ScanString(s, i + |CharText(c)|)
  {
    HoldsAt(s, i, CharText(c), 0);
    match c
    case Plain(_) =>
    case Escaped(_) => HoldsAt(s, i, CharText(c), 1);
    case Unicode(hex) =>
      HoldsAt(s, i, CharText(c), 1);
      forall k | i + 2 <= k < i + 6
        ensures IsHex(s[k])
      {
        HoldsAt(s, i, CharText(c), k - i);
        assert hex[k - i - 2] == s[k];
      }
  }

  lemma {:induction false} StringScanned(s: string, i: nat, chars: seq<Char>)
    requires CharsOk(chars) && Holds(s, i, StringText(chars))
    ensures i < |s| && s[i] == '"' && ScanString(s, i + 1) == Some(i + |StringText(chars)|)
  {
    HoldsBoth(s, i, "\"", CharsText(chars) + "\"");
    HoldsOne(s, i, '"');
    CharsScanned(s, i + 1, chars);
  }

  // The text behind a number does not carry it on.
  predicate Stops(s: string, i: nat) {
    i >= |s| || !('0' <= s[i] <= '9' || s[i] == '.' || s[i] == 'e' || s[i] == 'E')
  }

  lemma {:induction false} FirstDigit(s: string, i: nat, digits: string)
    requires digits != "" && Digits(digits) && Holds(s, i, digits) && NoDigitAt(s, i + |digits|)
    ensures i < |s| && IsDigit(s[i]) && s[i] == digits[0] && SkipDigits(s, i + 1) == i + |digits|
  {
    HoldsTail(s, i, digits);
    assert '0' <= digits[0] <= '9';
    var rest := digits[1..];
    assert Digits(rest) by {
      assert forall k {:trigger rest[k]} :: 0 <= k < |rest| ==> rest[k] == digits[k + 1];
    }
    DigitsSkipped(s, i + 1, rest);
  }

  lemma {:induction false} ExponentScanned(s: string, i: nat, e: Option<Exponent>)
    requires i <= |s| && (e.Some? ==> ExponentOk(e.value)) && Holds(s, i, ExponentText(e))
    requires Stops(s, i + |ExponentText(e)|)
    ensures ScanExponent(s, i) == i + |ExponentText(e)|
  {
    if e.None? {
      hide Holds, ExponentOk;
    } else {
      hide *;
      var d := ExponentParts(s, i, e.value);
      SkipsExponent(s, i, d, i + |ExponentText(e)|);
    }
  }

  // Where the digits of an exponent stand.
  lemma {:induction false} ExponentParts(s: string, i: nat, x: Exponent) returns (d: nat)
    requires i <= |s| && ExponentOk(x) && Holds(s, i, ExponentText(Some(x))) && Stops(s, i + |ExponentText(Some(x))|)
    ensures i + 1 <= d <= i + 2 && d < |s| && IsDigit(s[d]) && (s[i] == 'e' || s[i] == 'E')
    ensures d == i + 2 ==> s[i + 1] == '+' || s[i + 1] == '-'
    ensures SkipDigits(s, d + 1) == i + |ExponentText(Some(x))|
  {
    var text := [x.e] + (x.sign + x.digits);
    assert ExponentText(Some(x)) == text && |text| == 1 + |x.sign| + |x.digits|;
    d := i + 1 + |x.sign|;
    assert NoDigitAt(s, d + |x.digits|);
    hide Holds, SkipDigits, Digits, ExponentText, Stops, NoDigitAt;
    HoldsBoth(s, i, [x.e], x.sign + x.digits);
    HoldsBoth(s, i + 1, x.sign, x.digits);
    HoldsOne(s, i, x.e);
    FirstDigit(s, d, x.digits);
    if x.sign != "" { HoldsAt(s, i + 1, x.sign, 0); }
  }

  lemma {:induction false} SkipsExponent(s: string, i: nat, d: nat, e: nat)
    requires i + 1 <= d <= i + 2 && d < |s| && IsDigit(s[d]) && (s[i] == 'e' || s[i] == 'E')
    requires d == i + 2 ==> s[i + 1] == '+' || s[i + 1] == '-'
    requires SkipDigits(s, d + 1) == e
    ensures ScanExponent(s, i) == e
  {
    hide SkipDigits;
  }

  lemma {:induction false} FractionScanned(s: string, i: nat, fraction: string)
    requires i <= |s| && Digits(fraction) && Holds(s, i, FractionText(fraction))
    requires var j := i + |FractionText(fraction)|; j >= |s| || (!IsDigit(s[j]) && s[j] != '.')
    ensures i + |FractionText(fraction)|
         == if i + 1 < |s| && s[i] == '.' && IsDigit(s[i + 1]) then SkipDigits(s, i + 2) else i
  {
    hide Holds, SkipDigits, Digits;
    if fraction != "" {
      assert FractionText(fraction) == "." + fraction;
      HoldsBoth(s, i, ".", fraction);
      HoldsOne(s, i, '.');
      FirstDigit(s, i + 1, fraction);
    }
  }

  lemma {:induction false} WholeScanned(s: string, i: nat, whole: string)
    requires whole != "" && Digits(whole) && (whole[0] == '0' ==> |whole| == 1) && Holds(s, i, whole)
    requires NoDigitAt(s, i + |whole|)
    ensures i < |s| && IsDigit(s[i]) && s[i] == whole[0]
    ensures i + |whole| == if s[i] == '0' then i + 1 else SkipDigits(s, i + 1)
  {
    FirstDigit(s, i, whole);
  }

  // Where the parts of a number stand.
  lemma {:induction false} NumberParts(s: string, i: nat, n: Number) returns (d: nat, w: nat, f: nat)
    requires Holds(s, i, NumberText(n))
    ensures d == i + (if n.minus then 1 else 0) && w == d + |n.whole| && f == w + |FractionText(n.fraction)|
    ensures (n.minus ==> i < |s| && s[i] == '-') && i + |NumberText(n)| == f + |ExponentText(n.exponent)|
    ensures Holds(s, d, n.whole) && Holds(s, w, FractionText(n.fraction)) && Holds(s, f, ExponentText(n.exponent))
  {
    var sign := if n.minus then "-" else "";
    var fraction, exponent := FractionText(n.fraction), ExponentText(n.exponent);
    d := i + |sign|;
    w := d + |n.whole|;
    f := w + |fraction|;
    hide FractionText, ExponentText;
    HoldsBoth(s, i, sign, n.whole + (fraction + exponent));
    HoldsBoth(s, d, n.whole, fraction + exponent);
    HoldsBoth(s, w, fraction, exponent);
    if n.minus { HoldsOne(s, i, '-'); }
  }

  // What stands behind the whole part, and behind the fraction.
  lemma {:induction false} AfterParts(s: string, n: Number, w: nat, f: nat)
    requires NumberOk(n) && f == w + |FractionText(n.fraction)|
    requires Holds(s, w, FractionText(n.fraction)) && Holds(s, f, ExponentText(n.exponent))
    requires Stops(s, f + |ExponentText(n.exponent)|)
    ensures NoDigitAt(s, w) && (f >= |s| || (!IsDigit(s[f]) && s[f] != '.'))
  {
    if n.exponent.Some? { HoldsAt(s, f, ExponentText(n.exponent), 0); }
    if n.fraction != "" { HoldsAt(s, w, FractionText(n.fraction), 0); }
  }

  lemma {:induction false} NumberScanned(s: string, i: nat, n: Number)
    requires i <= |s| && NumberOk(n) && Holds(s, i, NumberText(n)) && Stops(s, i + |NumberText(n)|)
    ensures i < |s| && (s[i] == '-' || IsDigit(s[i])) && !StartsAt(s, i, "-Infinity")
    ensures ScanNumber(s, i) == Some(i + |NumberText(n)|)
  {
    hide *;
    var d, w, f := NumberParts(s, i, n);
    NumberFacts(n);
    AfterParts(s, n, w, f);
    WholeScanned(s, d, n.whole);
    FractionScanned(s, w, n.fraction);
    ExponentScanned(s, f, n.exponent);
    NumberStart(s, i, d, n.minus);
    ScannedByParts(s, i, d, w, f);
  }

  lemma {:induction false} NumberFacts(n: Number)
    requires NumberOk(n)
    ensures n.whole != "" && Digits(n.whole) && (n.whole[0] == '0' ==> |n.whole| == 1)
    ensures Digits(n.fraction) && (n.exponent.Some? ==> ExponentOk(n.exponent.value))
  {
    hide Digits, ExponentOk;
  }

  lemma {:induction false} NumberStart(s: string, i: nat, d: nat, minus: bool)
    requires d == (if minus then i + 1 else i) && d < |s| && IsDigit(s[d]) && (minus ==> s[i] == '-')
    ensures (s[i] == '-' || IsDigit(s[i])) && !StartsAt(s, i, "-Infinity") && (s[i] == '-' <==> minus)
  {
    NotInfinity(s, i, d);
    hide StartsAt;
  }

  lemma {:induction false} ScannedByParts(s: string, i: nat, d: nat, w: nat, f: nat)
    requires i <= d < |s| && d == (if s[i] == '-' then i + 1 else i) && IsDigit(s[d]) && w <= f <= |s|
    requires w == if s[d] == '0' then d + 1 else SkipDigits(s, d + 1)
    requires f == if w + 1 < |s| && s[w] == '.' && IsDigit(s[w + 1]) then SkipDigits(s, w + 2) else w
    ensures ScanNumber(s, i) == Some(ScanExponent(s, f))
  {
    hide ScanExponent, SkipDigits;
  }

  lemma {:induction false} NotInfinity(s: string, i: nat, d: nat)
    requires i <= d <= i + 1 && d < |s| && IsDigit(s[d])
    ensures !StartsAt(s, i, "-Infinity")
  {
    InfinityChars(s, i);
    hide StartsAt;
  }

  lemma {:induction false} InfinityChars(s: string, i: nat)
    requires i <= |s|
    ensures StartsAt(s, i, "-Infinity") ==> i + 1 < |s| && s[i] == '-' && s[i + 1] == 'I'
  {
    if StartsAt(s, i, "-Infinity") {
      assert s[i..i + 9][0] == s[i] && s[i..i + 9][1] == s[i + 1];
    }
  }

  lemma {:induction false} WordScanned(s: string, i: nat, word: string)
    requires ValueOk(Word(word)) && Holds(s, i, Render(Word(word)))
    ensures ScanValue(s, i) == Some(i + |Render(Word(word))|)
  {
    HoldsAt(s, i, word, 0);
    assert StartsAt(s, i, word);
  }

  predicate StartsValue(c: char) {
    !IsBlank(c) && c != ']' && c != '}' && c != ','
  }

  // What a rendered value begins with.
  lemma {:induction false} FirstChar(v: Value)
    requires ValueOk(v)
    ensures Render(v) != "" && StartsValue(Render(v)[0])
    ensures IsContainer(v) <==> IsOpener(Render(v)[0])
  {
    hide ItemsText, MembersText, ItemsOk, MembersOk, CharsText, CharsOk, Blank;
    if v.Num? {
      FirstOfNumber(v.number);
      hide NumberText, NumberOk;
    }
  }

  lemma {:induction false} FirstOfNumber(n: Number)
    requires NumberOk(n)
    ensures NumberText(n) != "" && (NumberText(n)[0] == '-' || '0' <= NumberText(n)[0] <= '9')
  {
    hide FractionText, ExponentText, ExponentOk;
    assert '0' <= n.whole[0] <= '9';
    assert NumberText(n)[0] == if n.minus then '-' else n.whole[0];
  }

  lemma {:induction false} NoBlankBefore(s: string, i: nat, v: Value)
    requires ValueOk(v) && Holds(s, i, Render(v))
    ensures NoBlankAt(s, i) && i < |s| && StartsValue(s[i])
  {
    hide Render, ValueOk;
    FirstChar(v);
    HoldsAt(s, i, Render(v), 0);
  }

  // Blanks, and then this character, not a blank.
  lemma {:induction false} BlanksThen(s: string, i: nat, blanks: string, c: char, rest: string)
    requires i <= |s| && Blank(blanks) && !IsBlank(c) && Holds(s, i, blanks + ([c] + rest))
    ensures var j := i + |blanks|;
            SkipBlanks(s, i) == j && j < |s| && s[j] == c && Holds(s, j + 1, rest) && Holds(s, i, blanks)
  {
    HoldsBoth(s, i, blanks, [c] + rest);
    HoldsBoth(s, i + |blanks|, [c], rest);
    HoldsOne(s, i + |blanks|, c);
    BlanksSkipped(s, i, blanks);
  }

  // Behind a number in a container comes a blank or a mark.
  lemma {:induction false} StopsBefore(s: string, i: nat, blanks: string, c: char, rest: string)
    requires Blank(blanks) && c in {',', ']', '}'} && Holds(s, i, blanks + ([c] + rest))
    ensures Stops(s, i)
  {
    var text := blanks + ([c] + rest);
    HoldsAt(s, i, text, 0);
    if blanks != "" { assert blanks[0] in {' ', '\t', '\n', '\r'}; }
  }

  // The scanner goes over a rendered value to its end.
  lemma {:induction false} ValueScanned(s: string, i: nat, v: Value)
    requires i <= |s| && ValueOk(v) && Holds(s, i, Render(v)) && (v.Num? ==> Stops(s, i + |Render(v)|))
    ensures ScanValue(s, i) == Some(i + |Render(v)|)
    decreases v, 0
  {
    hide *;
    match v
    case Word(text) => WordScanned(s, i, text);
    case Num(n) => NumScanned(s, i, n);
    case Str(chars) => StrScanned(s, i, chars);
    case EmptyArray(inside) => EmptyScanned(s, i, v, inside, ']');
    case EmptyObject(inside) => EmptyScanned(s, i, v, inside, '}');
    case Array(before, items) =>
      ArrayOpened(s, i, before, items);
      ItemsScanned(s, i + 1 + |before|, items);
    case Object(before, members) =>
      ObjectOpened(s, i, before, members);
      MembersScanned(s, i + 1 + |before|, members);
  }

  lemma {:induction false} NumScanned(s: string, i: nat, n: Number)
    requires i <= |s| && ValueOk(Num(n)) && Holds(s, i, Render(Num(n))) && Stops(s, i + |Render(Num(n))|)
    ensures ScanValue(s, i) == Some(i + |Render(Num(n))|)
  {
    NumberScanned(s, i, n);
    hide NumberText, NumberOk, Holds, Stops, ScanNumber, StartsAt;
  }

  lemma {:induction false} StrScanned(s: string, i: nat, chars: seq<Char>)
    requires i <= |s| && ValueOk(Str(chars)) && Holds(s, i, Render(Str(chars)))
    ensures ScanValue(s, i) == Some(i + |Render(Str(chars))|)
  {
    StringScanned(s, i, chars);
    hide StringText, CharsOk, Holds, ScanString;
  }

  lemma {:induction false} ArrayOpened(s: string, i: nat, before: string, items: Items)
    requires i <= |s| && ValueOk(Array(before, items)) && Holds(s, i, Render(Array(before, items)))
    ensures var j := i + 1 + |before|;
            && j <= |s| && ItemsOk(items) && Holds(s, j, ItemsText(items))
            && ScanValue(s, i) == ScanItems(s, j)
            && |Render(Array(before, items))| == 1 + |before| + |ItemsText(items)|
  {
    var j := i + 1 + |before|;
    hide ItemsText, ItemsOk, Blank, Holds, SkipBlanks, ScanItems, ScanString, ScanMembers, ScanScalar;
    assert Render(Array(before, items)) == "[" + (before + ItemsText(items));
    hide Render;
    Opened(s, i, '[', before, ItemsText(items));
    ItemsStart(s, j, items);
    BlanksSkipped(s, i + 1, before);
  }

  lemma {:induction false} ObjectOpened(s: string, i: nat, before: string, members: Members)
    requires i <= |s| && ValueOk(Object(before, members)) && Holds(s, i, Render(Object(before, members)))
    ensures var j := i + 1 + |before|;
            && j <= |s| && MembersOk(members) && Holds(s, j, MembersText(members))
            && ScanValue(s, i) == ScanMembers(s, j)
            && |Render(Object(before, members))| == 1 + |before| + |MembersText(members)|
  {
    var j := i + 1 + |before|;
    hide MembersText, MembersOk, Blank, Holds, SkipBlanks, ScanItems, ScanString, ScanMembers, ScanScalar;
    assert Render(Object(before, members)) == "{" + (before + MembersText(members));
    hide Render;
    Opened(s, i, '{', before, MembersText(members));
    MembersStart(s, j, members);
    BlanksSkipped(s, i + 1, before);
  }

  lemma {:induction false} EmptyScanned(s: string, i: nat, v: Value, inside: string, close: char)
    requires i <= |s| && ValueOk(v) && Holds(s, i, Render(v))
    requires (v == EmptyArray(inside) && close == ']') || (v == EmptyObject(inside) && close == '}')
    ensures ScanValue(s, i) == Some(i + |Render(v)|)
  {
    var open := if close == ']' then '[' else '{';
    assert Render(v) == [open] + (inside + ([close] + ""));
    HoldsBoth(s, i, [open], inside + ([close] + ""));
    HoldsOne(s, i, open);
    BlanksThen(s, i + 1, inside, close, "");
  }

  lemma {:induction false} Opened(s: string, i: nat, open: char, before: string, rest: string)
    requires Holds(s, i, [open] + (before + rest))
    ensures i < |s| && s[i] == open && Holds(s, i + 1, before) && Holds(s, i + 1 + |before|, rest)
  {
    HoldsBoth(s, i, [open], before + rest);
    HoldsOne(s, i, open);
    HoldsBoth(s, i + 1, before, rest);
  }

  lemma {:induction false} ItemsStart(s: string, i: nat, items: Items)
    requires ItemsOk(items) && Holds(s, i, ItemsText(items))
    ensures i < |s| && NoBlankAt(s, i) && s[i] != ']'
  {
    hide Holds, Render, ValueOk, Blank;
    var behind := match items
      case LastItem(_, after) => after + "]"
      case MoreItems(_, after, before, rest) => after + ("," + (before + ItemsText(rest)));
    HoldsBoth(s, i, Render(items.value), behind);
    NoBlankBefore(s, i, items.value);
  }

  // The last thing of a container: its blanks and its closing bracket.
  lemma {:induction false} Closes(s: string, i: nat, text: string, after: string, c: char)
    requires Blank(after) && (c == ']' || c == '}') && Holds(s, i, text + (after + [c]))
    ensures var e := i + |text|; var j := e + |after|;
            && Holds(s, i, text) && Stops(s, e) && e <= |s| && SkipBlanks(s, e) == j && j < |s| && s[j] == c
  {
    var e := i + |text|;
    HoldsBoth(s, i, text, after + [c]);
    assert after + [c] == after + ([c] + "");
    hide Blank, Stops, Holds;
    HoldsInside(s, e, after + [c]);
    BlanksThen(s, e, after, c, "");
    StopsBefore(s, e, after, c, "");
  }

  lemma {:induction false} HoldsInside(s: string, i: nat, text: string)
    requires Holds(s, i, text)
    ensures i + |text| <= |s|
  {
  }

  // One thing of a container and the mark behind it: the next one starts behind the blanks.
  lemma {:induction false} Separated(s: string, i: nat, text: string, after: string, before: string, rest: string)
    requires Blank(after) && Blank(before) && Holds(s, i, text + (after + ("," + (before + rest))))
    ensures var e := i + |text|; var j := e + |after|;
            && Holds(s, i, text) && Stops(s, e) && e <= |s| && SkipBlanks(s, e) == j && j < |s| && s[j] == ','
            && Holds(s, j + 1, before) && Holds(s, j + 1 + |before|, rest)
  {
    var e := i + |text|;
    HoldsBoth(s, i, text, after + ("," + (before + rest)));
    hide Blank, Stops, Holds;
    HoldsInside(s, e, after + ("," + (before + rest)));
    BlanksThen(s, e, after, ',', before + rest);
    StopsBefore(s, e, after, ',', before + rest);
    HoldsBoth(s, e + |after| + 1, before, rest);
  }

  lemma {:induction false} ItemsScanned(s: string, i: nat, items: Items)
    requires i <= |s| && ItemsOk(items) && Holds(s, i, ItemsText(items))
    ensures ScanItems(s, i) == Some(i + |ItemsText(items)|)
    decreases items, 1
  {
    var v := items.value;
    hide Holds, Render, ValueOk, Blank, Stops, SkipBlanks, ScanValue;
    match items
    case LastItem(_, after) =>
      Closes(s, i, Render(v), after, ']');
      ValueScanned(s, i, v);
    case MoreItems(_, after, before, rest) =>
      Separated(s, i, Render(v), after, before, ItemsText(rest));
      ValueScanned(s, i, v);
      var c := i + |Render(v)| + |after| + 1;
      ItemsStart(s, c + |before|, rest);
      BlanksSkipped(s, c, before);
      ItemsScanned(s, c + |before|, rest);
  }

  lemma {:induction false} MembersStart(s: string, i: nat, members: Members)
    requires Holds(s, i, MembersText(members))
    ensures i < |s| && NoBlankAt(s, i) && s[i] == '"'
  {
    var behind := match members
      case LastMember(_, after) => after + "}"
      case MoreMembers(_, after, before, rest) => after + ("," + (before + MembersText(rest)));
    assert MemberText(members.member)[0] == '"';
    hide Holds, MemberText;
    HoldsBoth(s, i, MemberText(members.member), behind);
    HoldsAt(s, i, MemberText(members.member), 0);
  }

  lemma {:induction false} MemberScanned(s: string, i: nat, m: Member)
    requires i <= |s| && MemberOk(m) && Holds(s, i, MemberText(m))
    requires m.value.Num? ==> Stops(s, i + |MemberText(m)|)
    ensures ScanMember(s, i) == Some(i + |MemberText(m)|)
    decreases m, 1
  {
    var k := i + |StringText(m.key)|;
    var behind := m.afterColon + Render(m.value);
    hide Holds, Render, StringText, ValueOk, Blank, CharsOk, Stops, SkipBlanks, ScanValue, ScanString;
    HoldsBoth(s, i, StringText(m.key), m.beforeColon + (":" + behind));
    HoldsInside(s, i, StringText(m.key));
    StringScanned(s, i, m.key);
    BlanksThen(s, k, m.beforeColon, ':', behind);
    var c := k + |m.beforeColon| + 1;
    HoldsBoth(s, c, m.afterColon, Render(m.value));
    NoBlankBefore(s, c + |m.afterColon|, m.value);
    BlanksSkipped(s, c, m.afterColon);
    ValueScanned(s, c + |m.afterColon|, m.value);
  }

  lemma {:induction false} MembersScanned(s: string, i: nat, members: Members)
    requires i <= |s| && MembersOk(members) && Holds(s, i, MembersText(members))
    ensures ScanMembers(s, i) == Some(i + |MembersText(members)|)
    decreases members, 1
  {
    var m := members.member;
    hide Holds, MemberText, MemberOk, Blank, Stops, SkipBlanks, ScanMember;
    match members
    case LastMember(_, after) =>
      Closes(s, i, MemberText(m), after, '}');
      MemberScanned(s, i, m);
    case MoreMembers(_, after, before, rest) =>
      Separated(s, i, MemberText(m), after, before, MembersText(rest));
      MemberScanned(s, i, m);
      var c := i + |MemberText(m)| + |after| + 1;
      MembersStart(s, c + |before|, rest);
      BlanksSkipped(s, c, before);
      MembersScanned(s, c + |before|, rest);
  }

  // ---- What is scanned is a rendered value ---------------------------------------------------------

  // The text stands at `i` and ends at `e`.
  predicate Spans(s: string, i: nat, text: string, e: nat) {
    Holds(s, i, text) && i + |text| == e
  }

  lemma {:induction false} SpansBoth(s: string, i: nat, a: string, m: nat, b: string, e: nat)
    requires Spans(s, i, a, m) && Spans(s, m, b, e)
    ensures Spans(s, i, a + b, e)
  {
    HoldsBoth(s, i, a, b);
    hide Holds;
  }

  lemma {:induction false} SpansOne(s: string, i: nat, c: char)
    requires i < |s| && s[i] == c
    ensures Spans(s, i, [c], i + 1)
  {
    HoldsOne(s, i, c);
    hide Holds;
  }

  lemma {:induction false} BlanksBetween(s: string, i: nat) returns (text: string)
    requires i <= |s|
    ensures Blank(text) && Spans(s, i, text, SkipBlanks(s, i))
    decreases |s| - i
  {
    text := "";
    if i < |s| && IsBlank(s[i]) {
      var rest := BlanksBetween(s, i + 1);
      SpansOne(s, i, s[i]);
      text := [s[i]] + rest;
      SpansBoth(s, i, [s[i]], i + 1, rest, SkipBlanks(s, i));
    }
  }

  lemma {:induction false} DigitsBetween(s: string, i: nat)
    requires i <= |s|
    ensures Digits(s[i..SkipDigits(s, i)])
    decreases |s| - i
  {
    var text := s[i..SkipDigits(s, i)];
    if i < |s| && IsDigit(s[i]) {
      DigitsBetween(s, i + 1);
      var rest := s[i + 1..SkipDigits(s, i + 1)];
      forall k | 0 <= k < |text|
        ensures '0' <= text[k] <= '9'
      {
        if k > 0 { assert text[k] == rest[k - 1]; }
      }
    }
  }

  // At least one digit.
  lemma {:induction false} DigitsFrom(s: string, i: nat, e: nat)
    requires i < |s| && IsDigit(s[i]) && e == SkipDigits(s, i + 1)
    ensures i < e <= |s| && Digits(s[i..e]) && s[i..e] != "" && s[i..e][0] == s[i] && Spans(s, i, s[i..e], e)
  {
    DigitsBetween(s, i);
  }

  lemma {:induction false} OneCharParsed(s: string, i: nat) returns (c: Char, j: nat)
    requires i < |s| && ScanString(s, i).Some? && s[i] != '"'
    ensures CharOk(c) && Spans(s, i, CharText(c), j) && i < j <= |s| && ScanString(s, j) == ScanString(s, i)
  {
    if s[i] != '\\' {
      c, j := Plain(s[i]), i + 1;
    } else if s[i + 1] in "\"\\/bfnrt" {
      c, j := Escaped(s[i + 1]), i + 2;
      assert s[i..i + 2] == "\\" + [s[i + 1]];
    } else {
      var hex := s[i + 2..i + 6];
      c, j := Unicode(hex), i + 6;
      assert forall k {:trigger hex[k]} :: 0 <= k < 4 ==> hex[k] == s[i + 2 + k] && IsHex(s[i + 2 + k]);
      assert s[i..i + 6] == "\\u" + hex;
    }
  }

  lemma {:induction false} CharsParsed(s: string, i: nat) returns (chars: seq<Char>)
    requires i <= |s| && ScanString(s, i).Some?
    ensures CharsOk(chars) && Spans(s, i, CharsText(chars) + "\"", ScanString(s, i).value)
    decreases |s| - i
  {
    var e := ScanString(s, i).value;
    if s[i] == '"' {
      chars := [];
      SpansOne(s, i, '"');
    } else {
      var c, j := OneCharParsed(s, i);
      var rest := CharsParsed(s, j);
      chars := [c] + rest;
      hide ScanString, CharOk, CharText, Spans;
      assert chars[1..] == rest;
      assert CharsText(chars) + "\"" == CharText(c) + (CharsText(rest) + "\"");
      SpansBoth(s, i, CharText(c), j, CharsText(rest) + "\"", e);
    }
  }

  lemma {:induction false} StringParsed(s: string, i: nat) returns (chars: seq<Char>)
    requires i < |s| && s[i] == '"' && ScanString(s, i + 1).Some?
    ensures CharsOk(chars) && Spans(s, i, StringText(chars), ScanString(s, i + 1).value)
  {
    chars := CharsParsed(s, i + 1);
    SpansOne(s, i, '"');
    hide ScanString, CharsText, CharsOk, Spans;
    SpansBoth(s, i, "\"", i + 1, CharsText(chars) + "\"", ScanString(s, i + 1).value);
  }

  lemma {:induction false} ExponentParsed(s: string, i: nat) returns (x: Option<Exponent>)
    requires i <= |s|
    ensures (x.Some? ==> ExponentOk(x.value)) && Spans(s, i, ExponentText(x), ScanExponent(s, i))
  {
    var e := ScanExponent(s, i);
    x := None;
    if e != i {
      var d := if IsDigit(s[i + 1]) then i + 1 else i + 2;
      DigitsFrom(s, d, e);
      x := Some(Exponent(s[i], s[i + 1..d], s[d..e]));
      assert s[i..e] == [s[i]] + (s[i + 1..d] + s[d..e]);
      assert s[i + 1..d] in {"", "+", "-"} by { if d == i + 2 { assert s[i + 1..d] == [s[i + 1]]; } }
    }
  }

  lemma {:induction false} NumberParsed(s: string, i: nat) returns (n: Number)
    requires i <= |s| && ScanNumber(s, i).Some?
    ensures NumberOk(n) && Spans(s, i, NumberText(n), ScanNumber(s, i).value)
  {
    var d, w, f := NumberEnds(s, i);
    WholeParsed(s, d, w);
    var fraction := FractionParsed(s, w, f);
    var x := ExponentParsed(s, f);
    n := Number(s[i] == '-', s[d..w], fraction, x);
    hide ScanNumber, ScanExponent, SkipDigits, ExponentOk;
    NumberSpans(s, i, d, w, f, n, ScanExponent(s, f));
  }

  lemma {:induction false} NumberEnds(s: string, i: nat) returns (d: nat, w: nat, f: nat)
    requires i <= |s| && ScanNumber(s, i).Some?
    ensures i <= d < |s| && d == (if s[i] == '-' then i + 1 else i) && IsDigit(s[d])
    ensures w <= f <= |s| && w == if s[d] == '0' then d + 1 else SkipDigits(s, d + 1)
    ensures f == if w + 1 < |s| && s[w] == '.' && IsDigit(s[w + 1]) then SkipDigits(s, w + 2) else w
    ensures ScanNumber(s, i) == Some(ScanExponent(s, f))
  {
    hide ScanExponent, SkipDigits;
    d := if s[i] == '-' then i + 1 else i;
    w := if s[d] == '0' then d + 1 else SkipDigits(s, d + 1);
    f := if w + 1 < |s| && s[w] == '.' && IsDigit(s[w + 1]) then SkipDigits(s, w + 2) else w;
  }

  lemma {:induction false} NumberSpans(s: string, i: nat, d: nat, w: nat, f: nat, n: Number, e: nat)
    requires i <= d < |s| && d == (if s[i] == '-' then i + 1 else i) && n.minus == (s[i] == '-')
    requires Spans(s, d, n.whole, w) && Spans(s, w, FractionText(n.fraction), f)
               && Spans(s, f, ExponentText(n.exponent), e)
    ensures Spans(s, i, NumberText(n), e)
  {
    var sign := if n.minus then "-" else "";
    if n.minus { SpansOne(s, i, '-'); } else { NothingHere(s, i); }
    hide FractionText, ExponentText, Spans;
    SpansBoth(s, w, FractionText(n.fraction), f, ExponentText(n.exponent), e);
    SpansBoth(s, d, n.whole, w, FractionText(n.fraction) + ExponentText(n.exponent), e);
    SpansBoth(s, i, sign, d, n.whole + (FractionText(n.fraction) + ExponentText(n.exponent)), e);
  }

  lemma {:induction false} WholeParsed(s: string, d: nat, w: nat)
    requires d < |s| && IsDigit(s[d]) && w == if s[d] == '0' then d + 1 else SkipDigits(s, d + 1)
    ensures d < w <= |s| && Digits(s[d..w]) && (s[d..w][0] == '0' ==> |s[d..w]| == 1) && Spans(s, d, s[d..w], w)
  {
    if s[d] != '0' { DigitsFrom(s, d, w); } else { assert s[d..w] == "0"; }
  }

  lemma {:induction false} FractionParsed(s: string, w: nat, f: nat) returns (fraction: string)
    requires w <= |s| && f == if w + 1 < |s| && s[w] == '.' && IsDigit(s[w + 1]) then SkipDigits(s, w + 2) else w
    ensures Digits(fraction) && Spans(s, w, FractionText(fraction), f)
  {
    fraction := "";
    if w + 1 < |s| && s[w] == '.' && IsDigit(s[w + 1]) {
      DigitsFrom(s, w + 1, f);
      fraction := s[w + 1..f];
      assert s[w..f] == "." + fraction;
    }
  }

  lemma {:induction false} WordParsed(s: string, i: nat, word: string)
    requires i < |s| && ValueOk(Word(word)) && ScanWord(s, i, word).Some?
    ensures Spans(s, i, Render(Word(word)), ScanWord(s, i, word).value)
  {
  }

  lemma {:induction false} ScalarParsed(s: string, i: nat) returns (v: Value)
    requires i < |s| && ScanScalar(s, i).Some?
    ensures ValueOk(v) && Spans(s, i, Render(v), ScanScalar(s, i).value) && !IsContainer(v)
  {
    hide ScanWord, ScanNumber, NumberText, NumberOk, Spans;
    var word := if s[i] == 'n' then "null" else if s[i] == 't' then "true" else if s[i] == 'f' then "false"
      else if s[i] == 'N' then "NaN" else if s[i] == 'I' then "Infinity" else "-Infinity";
    if s[i] in "ntfNI" || StartsAt(s, i, "-Infinity") {
      v := Word(word);
      WordParsed(s, i, word);
    } else {
      var n := NumberParsed(s, i);
      v := Num(n);
    }
  }

  // What the scanner accepts is a rendered value, a container exactly behind an opening bracket.
  lemma {:induction false} ValueParsed(s: string, i: nat) returns (v: Value)
    requires i <= |s| && ScanValue(s, i).Some?
    ensures ValueOk(v) && Spans(s, i, Render(v), ScanValue(s, i).value)
    ensures IsContainer(v) <==> IsOpener(s[i])
    decreases |s| - i, 2
  {
    if s[i] == '"' {
      var chars := StringParsed(s, i);
      v := Str(chars);
    } else if IsOpener(s[i]) {
      v := ContainerParsed(s, i);
    } else {
      v := ScalarParsed(s, i);
    }
  }

  lemma {:induction false} ContainerParsed(s: string, i: nat) returns (v: Value)
    requires i < |s| && IsOpener(s[i]) && ScanValue(s, i).Some?
    ensures ValueOk(v) && Spans(s, i, Render(v), ScanValue(s, i).value) && IsContainer(v)
    decreases |s| - i, 1
  {
    hide SkipBlanks, Spans, Blank, ScanMembers, MembersText, MembersOk, ScanItems, ItemsText, ItemsOk, ScanScalar;
    var e, j := ScanValue(s, i).value, SkipBlanks(s, i + 1);
    var before := BlanksBetween(s, i + 1);
    if j < |s| && s[j] == (if s[i] == '{' then '}' else ']') {
      NothingHere(s, j + 1);
      v := if s[i] == '{' then EmptyObject(before) else EmptyArray(before);
      assert e == j + 1;
      hide ScanValue;
      assert Render(v) == [s[i]] + (before + ([s[j]] + ""));
      hide Render;
      SpansOne(s, i, s[i]);
      Joined(s, i, [s[i]], i + 1, before, j, s[j], "", e);
    } else if s[i] == '{' {
      var members := MembersParsed(s, j, e);
      v := Object(before, members);
      hide ScanValue;
      BracketSpans(s, i, '{', before, j, MembersText(members), e);
    } else {
      var items := ItemsParsed(s, j, e);
      v := Array(before, items);
      hide ScanValue;
      BracketSpans(s, i, '[', before, j, ItemsText(items), e);
    }
  }

  lemma {:induction false} BracketSpans(s: string, i: nat, open: char, before: string, j: nat, rest: string, e: nat)
    requires i < |s| && s[i] == open && Spans(s, i + 1, before, j) && Spans(s, j, rest, e)
    ensures Spans(s, i, [open] + (before + rest), e)
  {
    SpansOne(s, i, open);
    hide Spans;
    SpansBoth(s, i + 1, before, j, rest, e);
    SpansBoth(s, i, [open], i + 1, before + rest, e);
  }

  // A thing, blanks, a mark, and what follows.
  lemma {:induction false} Joined(s: string, i: nat, text: string, m: nat, after: string, j: nat, c: char, rest: string,
        e: nat)
    requires Spans(s, i, text, m) && Spans(s, m, after, j) && j < |s| && s[j] == c && Spans(s, j + 1, rest, e)
    ensures Spans(s, i, text + (after + ([c] + rest)), e)
  {
    SpansOne(s, j, c);
    hide Spans;
    SpansBoth(s, j, [c], j + 1, rest, e);
    SpansBoth(s, m, after, j, [c] + rest, e);
    SpansBoth(s, i, text, m, after + ([c] + rest), e);
  }

  lemma {:induction false} NothingHere(s: string, i: nat)
    requires i <= |s|
    ensures Spans(s, i, "", i)
  {
  }

  lemma {:induction false} LastSpans(s: string, i: nat, text: string, m: nat, after: string, j: nat, c: char)
    requires Spans(s, i, text, m) && Spans(s, m, after, j) && j < |s| && s[j] == c
    ensures Spans(s, i, text + (after + [c]), j + 1)
  {
    NothingHere(s, j + 1);
    hide Spans;
    Joined(s, i, text, m, after, j, c, "", j + 1);
    assert [c] + "" == [c];
  }

  lemma {:induction false} MoreSpans(s: string, i: nat, text: string, m: nat, after: string, j: nat, before: string,
        n: nat,
        rest: string, e: nat)
    requires Spans(s, i, text, m) && Spans(s, m, after, j) && j < |s| && s[j] == ','
    requires Spans(s, j + 1, before, n) && Spans(s, n, rest, e)
    ensures Spans(s, i, text + (after + ("," + (before + rest))), e)
  {
    hide Spans;
    SpansBoth(s, j + 1, before, n, rest, e);
    Joined(s, i, text, m, after, j, ',', before + rest, e);
  }

  // Where an item ends, and what comes behind it.
  lemma {:induction false} ItemsEnd(s: string, i: nat, e: nat) returns (m: nat, j: nat, n: nat)
    requires i <= |s| && ScanItems(s, i) == Some(e)
    ensures i < |s| && ScanValue(s, i) == Some(m) && i < m <= j < |s| && j == SkipBlanks(s, m)
    ensures s[j] == ',' ==> j < n <= |s| && n == SkipBlanks(s, j + 1) && ScanItems(s, n) == Some(e)
    ensures s[j] != ',' ==> s[j] == ']' && e == j + 1
  {
    hide ScanValue, SkipBlanks;
    m := ScanValue(s, i).value;
    j := SkipBlanks(s, m);
    n := if s[j] == ',' then SkipBlanks(s, j + 1) else j;
  }

  lemma {:induction false} ItemsParsed(s: string, i: nat, e: nat) returns (items: Items)
    requires i <= |s| && ScanItems(s, i) == Some(e)
    ensures ItemsOk(items) && Spans(s, i, ItemsText(items), e)
    decreases |s| - i, 3
  {
    hide *;
    var m, j, n := ItemsEnd(s, i, e);
    var v := ValueParsed(s, i);
    var after := BlanksBetween(s, m);
    if s[j] == ',' {
      var before := BlanksBetween(s, j + 1);
      var rest := ItemsParsed(s, n, e);
      items := MoreItems(v, after, before, rest);
      MoreItemsText(v, after, before, rest);
      MoreSpans(s, i, Render(v), m, after, j, before, n, ItemsText(rest), e);
    } else {
      items := LastItem(v, after);
      LastItemText(v, after);
      LastSpans(s, i, Render(v), m, after, j, ']');
    }
  }

  lemma {:induction false} LastItemText(v: Value, after: string)
    ensures ItemsText(LastItem(v, after)) == Render(v) + (after + [']'])
    ensures ItemsOk(LastItem(v, after)) <==> ValueOk(v) && Blank(after)
  {
    hide Render, ValueOk, Blank;
  }

  lemma {:induction false} MoreItemsText(v: Value, after: string, before: string, rest: Items)
    ensures ItemsText(MoreItems(v, after, before, rest)) == Render(v) + (after + ("," + (before + ItemsText(rest))))
    ensures ItemsOk(MoreItems(v, after, before, rest)) <==> ValueOk(v) && Blank(after) && Blank(before) && ItemsOk(rest)
  {
    hide Render, ValueOk, Blank;
  }

  // Where a member's key and colon end, and where its value starts.
  lemma {:induction false} MemberEnd(s: string, i: nat) returns (k: nat, c: nat, u: nat)
    requires i <= |s| && ScanMember(s, i).Some?
    ensures i < |s| && s[i] == '"' && ScanString(s, i + 1) == Some(k) && i < k <= c < u <= |s|
    ensures c == SkipBlanks(s, k) && s[c] == ':' && u == SkipBlanks(s, c + 1)
    ensures ScanValue(s, u) == ScanMember(s, i)
  {
    hide ScanValue, SkipBlanks, ScanString;
    k := ScanString(s, i + 1).value;
    c := SkipBlanks(s, k);
    u := SkipBlanks(s, c + 1);
  }

  lemma {:induction false} MemberParsed(s: string, i: nat) returns (m: Member)
    requires i <= |s| && ScanMember(s, i).Some?
    ensures MemberOk(m) && Spans(s, i, MemberText(m), ScanMember(s, i).value)
    decreases |s| - i, 3
  {
    hide *;
    var k, c, u := MemberEnd(s, i);
    var key := StringParsed(s, i);
    var before := BlanksBetween(s, k);
    var after := BlanksBetween(s, c + 1);
    var v := ValueParsed(s, u);
    m := Member(key, before, after, v);
    MemberIsOk(m);
    MemberSpans(s, i, m, k, c, u, ScanMember(s, i).value);
  }

  lemma {:induction false} MemberIsOk(m: Member)
    requires CharsOk(m.key) && Blank(m.beforeColon) && Blank(m.afterColon) && ValueOk(m.value)
    ensures MemberOk(m)
  {
    hide CharsOk, Blank, ValueOk;
  }

  lemma {:induction false} MemberSpans(s: string, i: nat, m: Member, k: nat, c: nat, u: nat, e: nat)
    requires Spans(s, i, StringText(m.key), k) && Spans(s, k, m.beforeColon, c) && c < |s| && s[c] == ':'
    requires Spans(s, c + 1, m.afterColon, u) && Spans(s, u, Render(m.value), e)
    ensures Spans(s, i, MemberText(m), e)
  {
    hide Spans, Render, StringText;
    SpansBoth(s, c + 1, m.afterColon, u, Render(m.value), e);
    Joined(s, i, StringText(m.key), k, m.beforeColon, c, ':', m.afterColon + Render(m.value), e);
  }

  lemma {:induction false} MembersEnd(s: string, i: nat, e: nat) returns (m: nat, j: nat, n: nat)
    requires i <= |s| && ScanMembers(s, i) == Some(e)
    ensures i < |s| && ScanMember(s, i) == Some(m) && i < m <= j < |s| && j == SkipBlanks(s, m)
    ensures s[j] == ',' ==> j < n <= |s| && n == SkipBlanks(s, j + 1) && ScanMembers(s, n) == Some(e)
    ensures s[j] != ',' ==> s[j] == '}' && e == j + 1
  {
    hide ScanMember, SkipBlanks;
    m := ScanMember(s, i).value;
    j := SkipBlanks(s, m);
    n := if s[j] == ',' then SkipBlanks(s, j + 1) else j;
  }

  lemma {:induction false} MembersParsed(s: string, i: nat, e: nat) returns (members: Members)
    requires i <= |s| && ScanMembers(s, i) == Some(e)
    ensures MembersOk(members) && Spans(s, i, MembersText(members), e)
    decreases |s| - i, 4
  {
    hide *;
    var m, j, n := MembersEnd(s, i, e);
    var member := MemberParsed(s, i);
    var after := BlanksBetween(s, m);
    if s[j] == ',' {
      var before := BlanksBetween(s, j + 1);
      var rest := MembersParsed(s, n, e);
      members := MoreMembers(member, after, before, rest);
      MoreMembersText(member, after, before, rest);
      MoreSpans(s, i, MemberText(member), m, after, j, before, n, MembersText(rest), e);
    } else {
      members := LastMember(member, after);
      LastMemberText(member, after);
      LastSpans(s, i, MemberText(member), m, after, j, '}');
    }
  }

  lemma {:induction false} LastMemberText(m: Member, after: string)
    ensures MembersText(LastMember(m, after)) == MemberText(m) + (after + ['}'])
    ensures MembersOk(LastMember(m, after)) <==> MemberOk(m) && Blank(after)
  {
    hide MemberText, MemberOk, Blank;
  }

  lemma {:induction false} MoreMembersText(m: Member, after: string, before: string, rest: Members)
    ensures MembersText(MoreMembers(m, after, before, rest))
         == MemberText(m) + (after + ("," + (before + MembersText(rest))))
    ensures MembersOk(MoreMembers(m, after, before, rest))
       <==> MemberOk(m) && Blank(after) && Blank(before) && MembersOk(rest)
  {
    hide MemberText, MemberOk, Blank;
  }

  // From an opening bracket on, the scanner ends exactly where a rendered container does.
  lemma {:induction false} ContainerIff(s: string, i: nat, e: nat)
    requires i < |s| && IsOpener(s[i])
    ensures ScanValue(s, i) == Some(e) <==>
              exists v {:trigger Render(v)} :: ValueOk(v) && IsContainer(v) && Spans(s, i, Render(v), e)
  {
    hide ScanValue, ValueOk, Render, Holds;
    if ScanValue(s, i) == Some(e) {
      var v := ValueParsed(s, i);
    }
    if v :| ValueOk(v) && IsContainer(v) && Spans(s, i, Render(v), e) {
      ValueScanned(s, i, v);
    }
  }
}
