/**
 The planner's ranking: accepted categories first, then falling confidence, then category and id.
 */
module Ranking {
  import opened Policy

  // Code-point order on strings.
  predicate StrLess(a: string, b: string) {
    b != "" && (a == "" || a[0] < b[0] || (a[0] == b[0] && StrLess(a[1..], b[1..])))
  }

  lemma {:induction false} StrTotal(a: string, b: string)
    ensures !(StrLess(a, b) && StrLess(b, a))
    ensures a != b ==> StrLess(a, b) || StrLess(b, a)
  {
    if a != "" && b != "" && a[0] == b[0] {
      StrTotal(a[1..], b[1..]);
      assert a == [a[0]] + a[1..] && b == [b[0]] + b[1..];
    }
  }

  lemma {:induction false} StrTrans(a: string, b: string, c: string)
    ensures !StrLess(b, a) && !StrLess(c, b) ==> !StrLess(c, a)
  {
    if a != "" && b != "" && c != "" && a[0] == b[0] == c[0] {
      StrTrans(a[1..], b[1..], c[1..]);
    }
  }

  function Rank(accepted: set<string>, o: Opportunity): int {
    if o.category in accepted then 0 else 1
  }

  // Strictly ahead in the ranking.
  predicate Ahead(accepted: set<string>, a: Opportunity, b: Opportunity) {
    var p, q := Rank(accepted, a), Rank(accepted, b);
    p < q || (p == q && (a.confidence > b.confidence || (a.confidence == b.confidence
      && (StrLess(a.category, b.category) || (a.category == b.category && StrLess(a.id, b.id))))))
  }

  lemma {:induction false} AheadTotal(accepted: set<string>, a: Opportunity, b: Opportunity)
    ensures !(Ahead(accepted, a, b) && Ahead(accepted, b, a))
    ensures a.id != b.id ==> Ahead(accepted, a, b) || Ahead(accepted, b, a)
  {
    StrTotal(a.category, b.category);
    StrTotal(a.id, b.id);
  }

  lemma {:induction false} AheadTrans(accepted: set<string>, a: Opportunity, b: Opportunity, c: Opportunity)
    requires !Ahead(accepted, b, a) && !Ahead(accepted, c, b)
    ensures !Ahead(accepted, c, a)
  {
    StrTrans(a.category, b.category, c.category);
    StrTotal(a.category, b.category);
    StrTotal(b.category, c.category);
    StrTotal(a.category, c.category);
    StrTrans(a.id, b.id, c.id);
  }

  ghost predicate Ranked(accepted: set<string>, s: seq<Opportunity>) {
    forall i, j :: 0 <= i < j < |s| ==> !Ahead(accepted, s[j], s[i])
  }

  // The shorter of two texts that agree, or the one with the lesser character where they first differ.
  ghost predicate FirstDiffers(a: string, b: string) {
    exists k: nat {:trigger a[..k]} ::
      k <= |a| && k < |b| && a[..k] == b[..k] && (k == |a| || a[k] < b[k])
  }

  lemma {:induction false} StrLessIff(a: string, b: string)
    ensures StrLess(a, b) <==> FirstDiffers(a, b)
  {
    forall k: nat | 0 < k <= |a| && k < |b| && a[..k] == b[..k]
      ensures a[0] == b[0]
    {
      assert a[..k][0] == b[..k][0];
    }
    if b != "" && (a == "" || a[0] < b[0]) {
      assert a[..0] == b[..0];
    } else if a != "" && b != "" && a[0] == b[0] {
      StrLessIff(a[1..], b[1..]);
      if FirstDiffers(a[1..], b[1..]) {
        var k: nat :| k < |b[1..]| && k <= |a[1..]| && a[1..][..k] == b[1..][..k]
                      && (k == |a[1..]| || a[1..][k] < b[1..][k]);
        assert a[..k + 1] == [a[0]] + a[1..][..k] && b[..k + 1] == [b[0]] + b[1..][..k];
      }
      if FirstDiffers(a, b) {
        var k: nat :| k < |b| && k <= |a| && a[..k] == b[..k] && (k == |a| || a[k] < b[k]);
        assert a[1..][..k - 1] == a[..k][1..] && b[1..][..k - 1] == b[..k][1..];
      }
    }
  }

  // Of two ranked opportunities the first is of an accepted category when only one of them is, else
  // at least as sure; category and id decide between equals.
  lemma {:induction false} InKeyOrder(accepted: set<string>, s: seq<Opportunity>, i: nat, j: nat)
    requires Ranked(accepted, s) && i < j < |s|
    ensures s[j].category in accepted ==> s[i].category in accepted
    ensures var a, b := s[i], s[j];
            (a.category in accepted <==> b.category in accepted) ==>
              && a.confidence >= b.confidence
              && (a.confidence == b.confidence ==>
                    && !FirstDiffers(b.category, a.category)
                    && (a.category == b.category ==> !FirstDiffers(b.id, a.id)))
  {
    StrLessIff(s[j].category, s[i].category);
    StrLessIff(s[j].id, s[i].id);
    assert !Ahead(accepted, s[j], s[i]);
    hide StrLess, FirstDiffers;
  }

  // After everything it is not ahead of, so equal ranks keep their order.
  function Insert(accepted: set<string>, s: seq<Opportunity>, o: Opportunity): seq<Opportunity> {
    if s != [] && Ahead(accepted, o, s[|s| - 1])
    then Insert(accepted, s[..|s| - 1], o) + [s[|s| - 1]]
    else s + [o]
  }

  function SortByRank(accepted: set<string>, s: seq<Opportunity>): seq<Opportunity> {
    if s == [] then [] else Insert(accepted, SortByRank(accepted, s[..|s| - 1]), s[|s| - 1])
  }

  lemma {:induction false} InsertRanked(accepted: set<string>, s: seq<Opportunity>, o: Opportunity)
    requires Ranked(accepted, s)
    ensures Ranked(accepted, Insert(accepted, s, o))
    ensures multiset(Insert(accepted, s, o)) == multiset(s) + multiset{o}
  {
    if s != [] {
      var init, last := s[..|s| - 1], s[|s| - 1];
      assert s == init + [last];
      if Ahead(accepted, o, last) {
        InsertRanked(accepted, init, o);
        var r := Insert(accepted, init, o);
        AheadTotal(accepted, o, last);
        forall i | 0 <= i < |r|
          ensures !Ahead(accepted, last, r[i])
        {
          assert r[i] in multiset(r);
          if r[i] != o { assert r[i] in init; }
        }
      } else {
        forall i | 0 <= i < |s|
          ensures !Ahead(accepted, o, s[i])
        {
          if i < |s| - 1 { AheadTrans(accepted, s[i], last, o); }
        }
      }
    }
  }

  lemma {:induction false} InsertKeepsAll(accepted: set<string>, sorted: seq<Opportunity>, s: seq<Opportunity>)
    requires s != [] && Ranked(accepted, sorted) && multiset(sorted) == multiset(s[..|s| - 1])
    ensures var r := Insert(accepted, sorted, s[|s| - 1]); Ranked(accepted, r) && multiset(r) == multiset(s)
  {
    InsertRanked(accepted, sorted, s[|s| - 1]);
    assert s == s[..|s| - 1] + [s[|s| - 1]];
  }

  lemma {:induction false} SortIsRanked(accepted: set<string>, s: seq<Opportunity>)
    ensures Ranked(accepted, SortByRank(accepted, s)) && multiset(SortByRank(accepted, s)) == multiset(s)
  {
    if s != [] {
      SortIsRanked(accepted, s[..|s| - 1]);
      InsertKeepsAll(accepted, SortByRank(accepted, s[..|s| - 1]), s);
    }
  }

  ghost predicate DistinctIds(s: seq<Opportunity>) {
    forall i, j :: 0 <= i < j < |s| ==> s[i].id != s[j].id
  }

  lemma {:induction false} TwiceCounted(s: seq<Opportunity>, i: nat, j: nat)
    requires i < j < |s| && s[i] == s[j]
    ensures multiset(s)[s[i]] >= 2
  {
    assert s == s[..j] + [s[j]] + s[j + 1..];
    assert s[..j][i] == s[i];
    assert multiset(s) == multiset(s[..j]) + multiset{s[j]} + multiset(s[j + 1..]);
  }

  lemma {:induction false} CountedTwice(s: seq<Opportunity>, o: Opportunity) returns (i: nat, j: nat)
    requires multiset(s)[o] >= 2
    ensures i < j < |s| && s[i] == s[j] == o
  {
    assert o in multiset(s);
    var a :| 0 <= a < |s| && s[a] == o;
    var rest := s[..a] + s[a + 1..];
    assert s == s[..a] + [o] + s[a + 1..];
    assert multiset(rest)[o] == multiset(s)[o] - 1;
    assert o in multiset(rest);
    var k :| 0 <= k < |rest| && rest[k] == o;
    if k < a { i, j := k, a; } else { i, j := a, k + 1; }
  }

  // Rearranging keeps ids distinct.
  lemma {:induction false} DistinctIdsPermute(s: seq<Opportunity>, t: seq<Opportunity>)
    requires multiset(s) == multiset(t) && DistinctIds(s)
    ensures DistinctIds(t)
  {
    forall i, j | 0 <= i < j < |t|
      ensures t[i].id != t[j].id
    {
      if t[i] == t[j] {
        TwiceCounted(t, i, j);
        var k, l := CountedTwice(s, t[i]);
      } else {
        assert t[i] in multiset(s) && t[j] in multiset(s);
        var k :| 0 <= k < |s| && s[k] == t[i];
        var l :| 0 <= l < |s| && s[l] == t[j];
      }
    }
  }

  // A ranked list of opportunities with distinct ids is determined by its elements,
  lemma {:induction false} RankedUnique(accepted: set<string>, s: seq<Opportunity>, t: seq<Opportunity>)
    requires Ranked(accepted, s) && Ranked(accepted, t) && DistinctIds(s) && DistinctIds(t)
    requires forall o :: o in s <==> o in t
    ensures s == t
  {
    SameEmptiness(s, t);
    if s != [] {
      var init, rest := s[..|s| - 1], t[..|t| - 1];
      SameLast(accepted, s, t);
      forall o
        ensures o in init <==> o in rest
      {
        InInit(s, o);
        InInit(t, o);
      }
      RankedUnique(accepted, init, rest);
      assert s == init + [s[|s| - 1]] && t == rest + [t[|t| - 1]];
    }
  }

  lemma {:induction false} SameEmptiness(s: seq<Opportunity>, t: seq<Opportunity>)
    requires forall o :: o in s <==> o in t
    ensures s == [] <==> t == []
  {
    if s != [] { assert s[0] in t; }
    if t != [] { assert t[0] in s; }
  }

  lemma {:induction false} InInit(s: seq<Opportunity>, o: Opportunity)
    requires s != [] && DistinctIds(s)
    ensures o in s[..|s| - 1] <==> o in s && o != s[|s| - 1]
  {
    if o in s && o != s[|s| - 1] {
      var i :| 0 <= i < |s| && s[i] == o;
      assert s[..|s| - 1][i] == o;
    }
  }

  lemma {:induction false} NotBehindLast(accepted: set<string>, s: seq<Opportunity>, i: nat)
    requires Ranked(accepted, s) && i < |s|
    ensures s[i] == s[|s| - 1] || !Ahead(accepted, s[|s| - 1], s[i])
  {
  }

  lemma {:induction false} SameLast(accepted: set<string>, s: seq<Opportunity>, t: seq<Opportunity>)
    requires Ranked(accepted, s) && Ranked(accepted, t) && DistinctIds(s) && DistinctIds(t)
    requires s != [] && t != [] && forall o :: o in s <==> o in t
    ensures s[|s| - 1] == t[|t| - 1]
  {
    var a, b := s[|s| - 1], t[|t| - 1];
    assert a in t && b in s;
    var i :| 0 <= i < |t| && t[i] == a;
    var j :| 0 <= j < |s| && s[j] == b;
    AheadTotal(accepted, a, b);
    NotBehindLast(accepted, t, i);
    NotBehindLast(accepted, s, j);
  }

  // so the order in which the analysis lists its opportunities never matters.
  lemma {:induction false} SortIgnoresOrder(accepted: set<string>, s: seq<Opportunity>, t: seq<Opportunity>)
    requires multiset(s) == multiset(t) && DistinctIds(s)
    ensures SortByRank(accepted, s) == SortByRank(accepted, t)
  {
    SortIsRanked(accepted, s);
    SortIsRanked(accepted, t);
    var u, v := SortByRank(accepted, s), SortByRank(accepted, t);
    DistinctIdsPermute(s, u);
    DistinctIdsPermute(s, v);
    forall o
      ensures o in u <==> o in v
    {
      assert o in u <==> o in multiset(u);
      assert o in v <==> o in multiset(v);
    }
    RankedUnique(accepted, u, v);
  }
}
