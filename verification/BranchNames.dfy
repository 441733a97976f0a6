/**
 Branch names for planned pull requests: scoped to the session, cut to the column's width, and
 made unique by a numeric suffix.

 The suffix is never cut, only the base before it, so counters tell candidates apart.
 */
module BranchNames {
  const NAME_LIMIT := 255
  const BASE_LIMIT := 240

  // Python's `s[:n]`, which counts from the end when `n` is negative.
  function Cut(s: string, n: int): (r: string)
    ensures r <= s
    ensures n >= 0 ==> |r| <= n
  {
    if n >= |s| then s
    else if n >= 0 then s[..n]
    else if |s| + n > 0 then s[..|s| + n]
    else ""
  }

  predicate IsDigit(c: char) {
    '0' <= c <= '9'
  }

  function Digit(n: nat): (c: char)
    requires n < 10
    ensures IsDigit(c) && c as int - '0' as int == n
  {
    '0' + n as char
  }

  function Decimal(n: nat): (r: string)
    ensures r != "" && forall i :: 0 <= i < |r| ==> IsDigit(r[i])
  {
    if n < 10 then [Digit(n)] else Decimal(n / 10) + [Digit(n % 10)]
  }

  lemma {:induction false} DecimalInjective(a: nat, b: nat)
    requires Decimal(a) == Decimal(b)
    ensures a == b
  {
    var x, y := Decimal(a), Decimal(b);
    assert Digit(a % 10) == x[|x| - 1] == y[|y| - 1] == Digit(b % 10);
    if a >= 10 && b >= 10 {
      assert Decimal(a / 10) == x[..|x| - 1] && Decimal(b / 10) == y[..|y| - 1];
      DecimalInjective(a / 10, b / 10);
    }
  }

  function Power10(d: nat): nat {
    if d == 0 then 1 else 10 * Power10(d - 1)
  }

  lemma {:induction false} DecimalLength(n: nat, d: nat)
    requires d > 0 && n < Power10(d)
    ensures |Decimal(n)| <= d
    decreases d
  {
    if n >= 10 {
      DecimalLength(n / 10, d - 1);
    }
  }

  function Candidate(base: string, counter: nat): string {
    var suffix := "-" + Decimal(counter);
    Cut(base, NAME_LIMIT - |suffix|) + suffix
  }

  lemma {:induction false} CandidateShape(base: string, counter: nat)
    ensures var s, x := Candidate(base, counter), Decimal(counter);
            && |x| < |s| && s[|s| - |x| - 1] == '-' && s[|s| - |x|..] == x
            && forall k :: |s| - |x| <= k < |s| ==> IsDigit(s[k])
  {
    var s, x := Candidate(base, counter), Decimal(counter);
    forall k | |s| - |x| <= k < |s|
      ensures IsDigit(s[k])
    {
      assert s[k] == x[k - (|s| - |x|)];
    }
  }

  // Digits have no dash, so the last dash of a candidate gives its counter away, wherever the base
  // was cut.
  lemma {:induction false} CandidateInjective(base: string, a: nat, b: nat)
    requires Candidate(base, a) == Candidate(base, b)
    ensures a == b
  {
    CandidateShape(base, a);
    CandidateShape(base, b);
    DecimalInjective(a, b);
  }

  lemma {:induction false} CandidateLength(base: string, counter: nat)
    requires counter < Power10(NAME_LIMIT - 1)
    ensures |Candidate(base, counter)| <= NAME_LIMIT
  {
    DecimalLength(counter, NAME_LIMIT - 1);
  }

  lemma {:induction false} SubsetSize<T>(a: set<T>, b: set<T>)
    requires a <= b
    ensures |a| <= |b|
  {
    if x :| x in a {
      SubsetSize(a - {x}, b - {x});
    }
  }

  // The unused name with the smallest counter; `tried` bounds how many candidates were looked at.
  method UniqueBranchName(base: string, used: set<string>) returns (name: string, counter: nat)
    ensures name !in used
    ensures counter == 1 ==> name == base
    ensures counter != 1 ==> base in used && counter >= 2 && name == Candidate(base, counter)
    ensures forall k: nat :: 2 <= k < counter ==> Candidate(base, k) in used
    ensures counter <= |used| + 2
    ensures |base| <= NAME_LIMIT && |used| + 2 < Power10(NAME_LIMIT - 1) ==> |name| <= NAME_LIMIT
  {
    if base !in used {
      return base, 1;
    }
    counter := 2;
    ghost var seen: set<string> := {};
    while true
      invariant 2 <= counter && |seen| == counter - 2 && seen <= used
      invariant forall k: nat :: 2 <= k < counter ==> Candidate(base, k) in used
      invariant forall s :: s in seen ==> exists k: nat :: 2 <= k < counter && s == Candidate(base, k)
      invariant |seen| <= |used|
      decreases |used| - |seen|
    {
      name := Candidate(base, counter);
      if name !in used {
        if counter < Power10(NAME_LIMIT - 1) { CandidateLength(base, counter); }
        return;
      }
      if name in seen {
        var k: nat :| 2 <= k < counter && name == Candidate(base, k);
        CandidateInjective(base, k, counter);
      }
      seen := seen + {name};
      SubsetSize(seen, used);
      counter := counter + 1;
    }
  }

  predicate EndsInDash(s: string) {
    s != "" && s[|s| - 1] == '-'
  }

  function RStripDash(s: string): (r: string)
    ensures r <= s && !EndsInDash(r)
  {
    if EndsInDash(s) then RStripDash(s[..|s| - 1]) else s
  }

  // `slug` turns a text into letters, digits and dashes; `session` is the tail of the session id.
  function BaseBranchName(slug: string -> string, category: string, title: string, session: string): (r: string)
    ensures |r| <= BASE_LIMIT
  {
    var base := "gardener/" + slug(category) + "-" + slug(title);
    var scoped := if session == "" then base else Cut(base, BASE_LIMIT - |session| - 1) + "-" + session;
    RStripDash(Cut(scoped, BASE_LIMIT))
  }

  // Plans of one category and title in different sessions start from different names: a suffix has no
  // dash, so the last dash of a name tells where it begins.
  lemma {:induction false} SessionsGetDifferentBases(slug: string -> string, category: string, title: string,
        a: string, b: string)
    requires a != b && 0 < |a| <= 8 && 0 < |b| <= 8 && '-' !in a && '-' !in b
    ensures BaseBranchName(slug, category, title, a) != BaseBranchName(slug, category, title, b)
  {
    SuffixEndsBase(slug, category, title, a);
    SuffixEndsBase(slug, category, title, b);
    hide *;
    var x, y := BaseBranchName(slug, category, title, a), BaseBranchName(slug, category, title, b);
    if x == y {
      if |a| < |b| {
        ShorterSuffix(x, a, b);
      } else if |b| < |a| {
        ShorterSuffix(x, b, a);
      }
    }
  }

  ghost predicate EndsWithSuffix(name: string, suffix: string) {
    |suffix| < |name| && name[|name| - |suffix| - 1] == '-' && name[|name| - |suffix|..] == suffix
  }

  lemma {:induction false} SuffixEndsBase(slug: string -> string, category: string, title: string, session: string)
    requires 0 < |session| <= 8 && '-' !in session
    ensures EndsWithSuffix(BaseBranchName(slug, category, title, session), session)
  {
    var base := "gardener/" + slug(category) + "-" + slug(title);
    var cut := Cut(base, BASE_LIMIT - |session| - 1);
    var scoped := cut + "-" + session;
    assert scoped[|scoped| - 1] == session[|session| - 1];
    assert Cut(scoped, BASE_LIMIT) == scoped;
    assert scoped[|scoped| - |session|..] == session;
  }

  lemma {:induction false} ShorterSuffix(name: string, a: string, b: string)
    requires EndsWithSuffix(name, a) && EndsWithSuffix(name, b) && |a| < |b|
    ensures '-' in b
  {
    var k := |b| - |a| - 1;
    assert name[|name| - |b|..][k] == name[|name| - |a| - 1];
  }
}
