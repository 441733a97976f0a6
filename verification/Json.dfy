/**
 What Python's `json` decoder accepts (RFC 8259 plus the literals NaN, Infinity and -Infinity), and
 where the value ends.
 */
module Json {
  import opened Options

  predicate IsBlank(c: char) {
    c == ' ' || c == '\t' || c == '\n' || c == '\r'
  }

  predicate IsDigit(c: char) {
    '0' <= c <= '9'
  }

  predicate IsHex(c: char) {
    IsDigit(c) || 'a' <= c <= 'f' || 'A' <= c <= 'F'
  }

  predicate IsOpener(c: char) {
    c == '[' || c == '{'
  }

  predicate IsCloser(c: char) {
    c == ']' || c == '}'
  }

  // First position at or after `i` that is not white space.
  function SkipBlanks(s: string, i: nat): (r: nat)
    requires i <= |s|
    ensures i <= r <= |s|
    decreases |s| - i
  {
    if i < |s| && IsBlank(s[i]) then SkipBlanks(s, i + 1) else i
  }

  function SkipDigits(s: string, i: nat): (r: nat)
    requires i <= |s|
    ensures i <= r <= |s|
    decreases |s| - i
  {
    if i < |s| && IsDigit(s[i]) then SkipDigits(s, i + 1) else i
  }

  // Position just past the closing quote of a string whose body starts at `i`.
  function ScanString(s: string, i: nat): (r: Option<nat>)
    requires i <= |s|
    ensures r.Some? ==> i < r.value <= |s|
    decreases |s| - i
  {
    if i == |s| then None
    else if s[i] == '"' then Some(i + 1)
    else if s[i] == '\\' then
      if i + 1 == |s| then None
      else if s[i + 1] in "\"\\/bfnrt" then ScanString(s, i + 2)
      else if s[i + 1] == 'u' && i + 6 <= |s|
          && (forall k :: i + 2 <= k < i + 6 ==> IsHex(s[k])) then ScanString(s, i + 6)
      else None
    else if s[i] < ' ' then None
    else ScanString(s, i + 1)
  }

  // Position just past the number at `i`, if one starts there.
  function ScanNumber(s: string, i: nat): (r: Option<nat>)
    requires i <= |s|
    ensures r.Some? ==> i < r.value <= |s|
  {
    var d := if i < |s| && s[i] == '-' then i + 1 else i;
    if d == |s| || !IsDigit(s[d]) then None
    else
      var n := if s[d] == '0' then d + 1 else SkipDigits(s, d + 1);
      var f := if n + 1 < |s| && s[n] == '.' && IsDigit(s[n + 1]) then SkipDigits(s, n + 2) else n;
      Some(ScanExponent(s, f))
  }

  function ScanExponent(s: string, i: nat): (r: nat)
    requires i <= |s|
    ensures i <= r <= |s|
  {
    if i + 1 < |s| && (s[i] == 'e' || s[i] == 'E') then
      if IsDigit(s[i + 1]) then SkipDigits(s, i + 2)
      else if i + 2 < |s| && (s[i + 1] == '+' || s[i + 1] == '-') && IsDigit(s[i + 2]) then SkipDigits(s, i + 3)
      else i
    else i
  }

  predicate StartsAt(s: string, i: nat, word: string)
    requires i <= |s|
  {
    i + |word| <= |s| && s[i..i + |word|] == word
  }

  function ScanWord(s: string, i: nat, word: string): (r: Option<nat>)
    requires i <= |s| && word != ""
    ensures r.Some? ==> i < r.value <= |s|
  {
    if StartsAt(s, i, word) then Some(i + |word|) else None
  }

  function ScanScalar(s: string, i: nat): (r: Option<nat>)
    requires i < |s|
    ensures r.Some? ==> i < r.value <= |s|
  {
    if s[i] == 'n' then ScanWord(s, i, "null")
    else if s[i] == 't' then ScanWord(s, i, "true")
    else if s[i] == 'f' then ScanWord(s, i, "false")
    else if s[i] == 'N' then ScanWord(s, i, "NaN")
    else if s[i] == 'I' then ScanWord(s, i, "Infinity")
    else if StartsAt(s, i, "-Infinity") then ScanWord(s, i, "-Infinity")
    else ScanNumber(s, i)
  }

  // End of the value starting exactly at `i`.
  function ScanValue(s: string, i: nat): (r: Option<nat>)
    requires i <= |s|
    ensures r.Some? ==> i < r.value <= |s|
    decreases |s| - i, 2
  {
    if i == |s| then None
    else if s[i] == '"' then ScanString(s, i + 1)
    else if s[i] == '{' then
      var j := SkipBlanks(s, i + 1);
      if j < |s| && s[j] == '}' then Some(j + 1) else ScanMembers(s, j)
    else if s[i] == '[' then
      var j := SkipBlanks(s, i + 1);
      if j < |s| && s[j] == ']' then Some(j + 1) else ScanItems(s, j)
    else ScanScalar(s, i)
  }

  // The rest of an array, from the first character of an item.
  function ScanItems(s: string, i: nat): (r: Option<nat>)
    requires i <= |s|
    ensures r.Some? ==> i < r.value <= |s|
    decreases |s| - i, 3
  {
    var v := ScanValue(s, i);
    if v.None? then None
    else
      var j := SkipBlanks(s, v.value);
      if j == |s| then None
      else if s[j] == ']' then Some(j + 1)
      else if s[j] == ',' then ScanItems(s, SkipBlanks(s, j + 1))
      else None
  }

  // The rest of an object, from the opening quote of a key.
  function ScanMembers(s: string, i: nat): (r: Option<nat>)
    requires i <= |s|
    ensures r.Some? ==> i < r.value <= |s|
    decreases |s| - i, 4
  {
    var m := ScanMember(s, i);
    if m.None? then None
    else
      var j := SkipBlanks(s, m.value);
      if j == |s| then None
      else if s[j] == '}' then Some(j + 1)
      else if s[j] == ',' then ScanMembers(s, SkipBlanks(s, j + 1))
      else None
  }

  // End of one key and its value.
  function ScanMember(s: string, i: nat): (r: Option<nat>)
    requires i <= |s|
    ensures r.Some? ==> i < r.value <= |s|
    decreases |s| - i, 3
  {
    if i == |s| || s[i] != '"' then None
    else
      var k := ScanString(s, i + 1);
      if k.None? then None
      else
        var c := SkipBlanks(s, k.value);
        if c == |s| || s[c] != ':' then None
        else ScanValue(s, SkipBlanks(s, c + 1))
  }
}
