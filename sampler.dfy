/** weightedSample: build a pool holding each card once per unit of (boosted)
    weight, shuffle it in place with Fisher-Yates, and take cards from the front,
    skipping names already taken, until the hand holds n cards. The random
    indices of the shuffle are an input: js[i] is the index drawn when the loop is at i. */
module Sampler {
  import opened Cards
  import C = Constants

  // ----- The pool -----

  /** A card's weight, multiplied by the pending boost when its tag matches. */
  function EffectiveWeight(c: Card, boost: Option<Boost>): real {
    if boost.Some? && c.synergy == Some(boost.value.tag) then c.weight as real * boost.value.amount
    else c.weight as real
  }

  /** How often `for (i = 0; i < w; i++)` runs: the least natural number not below w,
      so a fractional weight rounds up and a weight <= 0 gives no copies. */
  function Copies(w: real): (k: nat)
    ensures w <= k as real
    ensures k == 0 || (k - 1) as real < w
  {
    if w <= 0.0 then 0 else -((-w).Floor)
  }

  /** Any natural that has the two properties of Copies(w) is Copies(w). */
  lemma CopiesUnique(w: real, i: int)
    requires 0 <= i && w <= i as real
    requires i == 0 || (i - 1) as real < w
    ensures i == Copies(w)
  {
  }

  /** The pool the push loops build, card by card in catalog order. */
  function Pool(cards: seq<Card>, boost: Option<Boost>): seq<Card> {
    if cards == [] then []
    else
      var c := cards[|cards| - 1];
      Pool(cards[..|cards| - 1], boost) + seq(Copies(EffectiveWeight(c, boost)), _ => c)
  }

  predicate Drawable(c: Card, boost: Option<Boost>) {
    EffectiveWeight(c, boost) > 0.0
  }

  /** A card is in the pool exactly when it is in the catalog and its effective weight is positive. */
  lemma {:induction false} PoolMembers(cards: seq<Card>, boost: Option<Boost>, c: Card)
    ensures c in Pool(cards, boost) <==> c in cards && Drawable(c, boost)
  {
    if cards != [] {
      var init, last := cards[..|cards| - 1], cards[|cards| - 1];
      assert cards == init + [last];
      PoolMembers(init, boost, c);
      var copies := seq(Copies(EffectiveWeight(last, boost)), _ => last);
      assert c in copies <==> c == last && Drawable(last, boost) by {
        if c == last && Drawable(last, boost) {
          assert copies[0] == c;
        }
      }
    }
  }

  /** One more card of the catalog adds its copies at the end of the pool. */
  lemma PoolExtend(cards: seq<Card>, boost: Option<Boost>, k: int)
    requires 0 <= k < |cards|
    ensures Pool(cards[..k + 1], boost)
      == Pool(cards[..k], boost) + seq(Copies(EffectiveWeight(cards[k], boost)), _ => cards[k])
  {
    assert cards[..k + 1][..k] == cards[..k];
  }

  /** The inner push loop: `w` rounded up copies of c appended to the pool. */
  method PushCopies(pool: seq<Card>, c: Card, w: real) returns (r: seq<Card>)
    ensures r == pool + seq(Copies(w), _ => c)
  {
    r := pool;
    var i := 0;
    while (i as real) < w
      invariant 0 <= i
      invariant i == 0 || (i - 1) as real < w
      invariant r == pool + seq(i, _ => c)
      decreases Copies(w) - i
    {
      r := r + [c];
      i := i + 1;
    }
    CopiesUnique(w, i);
  }

  /** The push loops: for each card, ceil(effective weight) copies. */
  method BuildPool(cards: seq<Card>, boost: Option<Boost>) returns (pool: seq<Card>)
    ensures pool == Pool(cards, boost)
  {
    pool := [];
    var k := 0;
    while k < |cards|
      invariant 0 <= k <= |cards|
      invariant pool == Pool(cards[..k], boost)
    {
      var c := cards[k];
      var effectiveWeight := c.weight as real;
      if boost.Some? && c.synergy == Some(boost.value.tag) {
        effectiveWeight := effectiveWeight * boost.value.amount;
      }
      assert effectiveWeight == EffectiveWeight(c, boost);
      pool := PushCopies(pool, c, effectiveWeight);
      PoolExtend(cards, boost, k);
      k := k + 1;
    }
    assert cards[..|cards|] == cards;
  }

  // ----- The shuffle -----

  /** js supplies, for every i in 1 .. n-1, an index in [0, i]. */
  predicate ValidDraws(js: seq<int>, n: int) {
    |js| == n && forall k :: 0 < k < n ==> 0 <= js[k] <= k
  }

  /** The Fisher-Yates loop from position i down to 1. */
  function FisherYates<T>(s: seq<T>, js: seq<int>, i: int): seq<T>
    requires i < |s| && ValidDraws(js, |s|)
    decreases i
  {
    if i <= 0 then s
    else FisherYates(s[i := s[js[i]]][js[i] := s[i]], js, i - 1)
  }

  lemma SwapPermutes<T>(s: seq<T>, i: int, j: int)
    requires 0 <= i < |s| && 0 <= j < |s|
    ensures multiset(s[i := s[j]][j := s[i]]) == multiset(s)
  {
  }

  /** The shuffle only permutes the pool. */
  lemma {:induction false} FisherYatesPermutes<T>(s: seq<T>, js: seq<int>, i: int)
    requires i < |s| && ValidDraws(js, |s|)
    ensures |FisherYates(s, js, i)| == |s|
    ensures multiset(FisherYates(s, js, i)) == multiset(s)
    decreases i
  {
    if i > 0 {
      var t := s[i := s[js[i]]][js[i] := s[i]];
      SwapPermutes(s, i, js[i]);
      FisherYatesPermutes(t, js, i - 1);
    }
  }

  /** The in-place swap loop. */
  method Shuffle(a: array<Card>, js: seq<int>)
    requires ValidDraws(js, a.Length)
    modifies a
    ensures a[..] == FisherYates(old(a[..]), js, a.Length - 1)
    ensures multiset(a[..]) == multiset(old(a[..]))
  {
    var i := a.Length - 1;
    while i > 0
      invariant -1 <= i < a.Length
      invariant FisherYates(a[..], js, i) == FisherYates(old(a[..]), js, a.Length - 1)
    {
      var j := js[i];
      a[i], a[j] := a[j], a[i];
      i := i - 1;
    }
    FisherYatesPermutes(old(a[..]), js, a.Length - 1);
  }

  // ----- The scan -----

  function Names(s: seq<Card>): set<string> {
    set c | c in s :: c.name
  }

  predicate DistinctNames(s: seq<Card>) {
    forall i, j :: 0 <= i < j < |s| ==> s[i].name != s[j].name
  }

  /** The scan from position i with hand `chosen` so far. */
  function Pick(pool: seq<Card>, i: nat, n: int, chosen: seq<Card>): seq<Card>
    requires i <= |pool|
    decreases |pool| - i
  {
    if i == |pool| || |chosen| >= n then chosen
    else if pool[i].name in Names(chosen) then Pick(pool, i + 1, n, chosen)
    else Pick(pool, i + 1, n, chosen + [pool[i]])
  }

  lemma NamesAppend(s: seq<Card>, c: Card)
    ensures Names(s + [c]) == Names(s) + {c.name}
  {
    assert forall x :: x in s + [c] <==> x in s || x == c;
  }

  /** The scan keeps the names distinct, only adds to the hand, takes only pool cards,
      stops at n cards, and when it stops short it has seen every name in the rest of the pool. */
  lemma {:induction false} PickSpec(pool: seq<Card>, i: nat, n: int, chosen: seq<Card>)
    requires i <= |pool| && DistinctNames(chosen)
    ensures var r := Pick(pool, i, n, chosen);
      && DistinctNames(r)
      && |chosen| <= |r| && r[..|chosen|] == chosen
      && (forall c :: c in r ==> c in chosen || c in pool[i..])
      && (if |chosen| >= n then r == chosen else |r| <= n)
      && (|r| < n ==> Names(pool[i..]) <= Names(r))
    decreases |pool| - i
  {
    var r := Pick(pool, i, n, chosen);
    if i == |pool| {
      assert pool[i..] == [];
    } else if |chosen| >= n {
    } else {
      assert pool[i..] == [pool[i]] + pool[i + 1..];
      assert Names(pool[i..]) == {pool[i].name} + Names(pool[i + 1..]);
      if pool[i].name in Names(chosen) {
        PickSpec(pool, i + 1, n, chosen);
        assert forall x :: x in Names(chosen) ==> x in Names(r) by {
          forall x | x in Names(chosen) ensures x in Names(r) {
            var c :| c in chosen && c.name == x;
            var k :| 0 <= k < |chosen| && chosen[k] == c;
            assert r[k] == c;
          }
        }
      } else {
        var next := chosen + [pool[i]];
        assert DistinctNames(next) by {
          forall a, b | 0 <= a < b < |next| ensures next[a].name != next[b].name {
            if b == |chosen| {
              assert next[a] in chosen;
            }
          }
        }
        PickSpec(pool, i + 1, n, next);
        assert r[..|next|][..|chosen|] == r[..|chosen|];
        if |r| < n {
          assert r[|chosen|] == pool[i];
        }
      }
    }
  }

  /** With distinct names, there are as many names as cards. */
  lemma {:induction false} DistinctNamesCount(s: seq<Card>)
    requires DistinctNames(s)
    ensures |Names(s)| == |s|
  {
    if s != [] {
      var init, last := s[..|s| - 1], s[|s| - 1];
      assert s == init + [last];
      assert DistinctNames(init);
      DistinctNamesCount(init);
      NamesAppend(init, last);
      assert last.name !in Names(init);
    }
  }

  lemma SubsetCount<T>(a: set<T>, b: set<T>)
    requires a <= b
    ensures |a| <= |b|
  {
    assert b == a + (b - a);
    assert a * (b - a) == {};
  }

  /** The scan fills the hand whenever the pool holds at least n names. */
  lemma PickFills(pool: seq<Card>, n: int)
    requires |Names(pool)| >= n >= 0
    ensures |Pick(pool, 0, n, [])| == n
  {
    var r := Pick(pool, 0, n, []);
    PickSpec(pool, 0, n, []);
    if |r| < n {
      assert pool[0..] == pool;
      SubsetCount(Names(pool), Names(r));
      DistinctNamesCount(r);
    }
  }

  // ----- The whole sampler -----

  /** The names that can be dealt: those of cards with a positive effective weight. */
  function DrawableNames(cards: seq<Card>, boost: Option<Boost>): set<string> {
    set c | c in cards && Drawable(c, boost) :: c.name
  }

  lemma PoolNames(cards: seq<Card>, boost: Option<Boost>)
    ensures Names(Pool(cards, boost)) == DrawableNames(cards, boost)
  {
    forall c ensures c in Pool(cards, boost) <==> c in cards && Drawable(c, boost) {
      PoolMembers(cards, boost, c);
    }
  }

  /** The hand weightedSample(n) returns for the given shuffle indices. */
  function Sample(cards: seq<Card>, boost: Option<Boost>, n: int, js: seq<int>): seq<Card>
    requires ValidDraws(js, |Pool(cards, boost)|)
  {
    var pool := Pool(cards, boost);
    Pick(FisherYates(pool, js, |pool| - 1), 0, n, [])
  }

  /** A card of a dealt hand is a drawable catalog card. */
  lemma SampleMember(cards: seq<Card>, boost: Option<Boost>, n: int, js: seq<int>, c: Card)
    requires ValidDraws(js, |Pool(cards, boost)|)
    requires c in Sample(cards, boost, n, js)
    ensures c in cards && Drawable(c, boost)
  {
    var pool := Pool(cards, boost);
    var shuffled := FisherYates(pool, js, |pool| - 1);
    PickSpec(shuffled, 0, n, []);
    assert shuffled[0..] == shuffled;
    assert c in multiset(shuffled);
    FisherYatesPermutes(pool, js, |pool| - 1);
    assert c in pool;
    PoolMembers(cards, boost, c);
  }

  /** Every card of a dealt hand is a drawable catalog card. */
  lemma SampleMembers(cards: seq<Card>, boost: Option<Boost>, n: int, js: seq<int>)
    requires ValidDraws(js, |Pool(cards, boost)|)
    ensures forall c :: c in Sample(cards, boost, n, js) ==> c in cards && Drawable(c, boost)
  {
    forall c | c in Sample(cards, boost, n, js) ensures c in cards && Drawable(c, boost) {
      SampleMember(cards, boost, n, js, c);
    }
  }

  /** A dealt hand is full when n names are drawable. */
  lemma SampleFull(cards: seq<Card>, boost: Option<Boost>, n: int, js: seq<int>)
    requires ValidDraws(js, |Pool(cards, boost)|)
    requires |DrawableNames(cards, boost)| >= n >= 0
    ensures |Sample(cards, boost, n, js)| == n
  {
    var pool := Pool(cards, boost);
    var shuffled := FisherYates(pool, js, |pool| - 1);
    FisherYatesPermutes(pool, js, |pool| - 1);
    PoolNames(cards, boost);
    FisherYatesNames(pool, shuffled);
    PickFills(shuffled, n);
  }

  /** What a dealt hand is, whatever the shuffle: at most n cards, pairwise distinct
      names, each a drawable catalog card, and exactly n when n names are drawable. */
  lemma SampleSpec(cards: seq<Card>, boost: Option<Boost>, n: int, js: seq<int>)
    requires ValidDraws(js, |Pool(cards, boost)|)
    ensures var hand := Sample(cards, boost, n, js);
      && (|hand| <= n || hand == [])
      && DistinctNames(hand)
      && (forall c :: c in hand ==> c in cards && Drawable(c, boost))
      && (|DrawableNames(cards, boost)| >= n >= 0 ==> |hand| == n)
  {
    var pool := Pool(cards, boost);
    var shuffled := FisherYates(pool, js, |pool| - 1);
    PickSpec(shuffled, 0, n, []);
    SampleMembers(cards, boost, n, js);
    if |DrawableNames(cards, boost)| >= n >= 0 {
      SampleFull(cards, boost, n, js);
    }
  }

  /** The scan loop over the shuffled pool. */
  method PickDistinct(pool: array<Card>, n: int) returns (chosen: seq<Card>)
    ensures chosen == Pick(pool[..], 0, n, [])
  {
    chosen := [];
    var usedNames: set<string> := {};
    var i := 0;
    while i < pool.Length && |chosen| < n
      invariant 0 <= i <= pool.Length
      invariant usedNames == Names(chosen)
      invariant Pick(pool[..], i, n, chosen) == Pick(pool[..], 0, n, [])
    {
      var cardName := pool[i].name;
      if cardName !in usedNames {
        NamesAppend(chosen, pool[i]);
        chosen := chosen + [pool[i]];
        usedNames := usedNames + {cardName};
      }
      i := i + 1;
    }
  }

  method WeightedSample(cards: seq<Card>, boost: Option<Boost>, n: int, js: seq<int>) returns (chosen: seq<Card>)
    requires ValidDraws(js, |Pool(cards, boost)|)
    ensures chosen == Sample(cards, boost, n, js)
    ensures |chosen| <= n || chosen == []
    ensures DistinctNames(chosen)
    ensures forall c :: c in chosen ==> c in cards && Drawable(c, boost)
    ensures |DrawableNames(cards, boost)| >= n >= 0 ==> |chosen| == n
  {
    var pool := BuildPool(cards, boost);
    var a := new Card[|pool|](k requires 0 <= k < |pool| => pool[k]);
    assert a[..] == pool;
    Shuffle(a, js);
    chosen := PickDistinct(a, n);
    SampleSpec(cards, boost, n, js);
  }

  /** Permuting a sequence keeps its names. */
  lemma FisherYatesNames(s: seq<Card>, t: seq<Card>)
    requires multiset(s) == multiset(t)
    ensures Names(s) == Names(t)
  {
    forall c ensures c in s <==> c in t {
      assert c in s <==> c in multiset(s);
      assert c in t <==> c in multiset(t);
    }
  }

  /** The first three catalog cards carry three different names. */
  lemma CatalogHeadNames()
    ensures |{Catalog[0].name, Catalog[1].name, Catalog[2].name}| == 3
  {
  }

  /** A card of positive weight is drawable under any boost of positive amount. */
  lemma PositiveWeightDrawable(cards: seq<Card>, boost: Option<Boost>, c: Card)
    requires c in cards && c.weight > 0
    requires boost.None? || boost.value.amount > 0.0
    ensures c.name in DrawableNames(cards, boost)
  {
    assert Drawable(c, boost);
  }

  lemma CatalogHeadDrawable(boost: Option<Boost>)
    requires boost.None? || boost.value.amount > 0.0
    ensures {Catalog[0].name, Catalog[1].name, Catalog[2].name} <= DrawableNames(Catalog, boost)
  {
    CatalogWellFormed();
    PositiveWeightDrawable(Catalog, boost, Catalog[0]);
    PositiveWeightDrawable(Catalog, boost, Catalog[1]);
    PositiveWeightDrawable(Catalog, boost, Catalog[2]);
  }

  /** Every catalog card can be dealt unless a boost has a non-positive amount, so the
      catalog always yields a full hand of CARD_DRAW_COUNT cards. */
  lemma CatalogDealsFullHand(boost: Option<Boost>)
    requires boost.None? || boost.value.amount > 0.0
    ensures |DrawableNames(Catalog, boost)| >= C.CardDrawCount
  {
    CatalogHeadNames();
    CatalogHeadDrawable(boost);
    SubsetCount({Catalog[0].name, Catalog[1].name, Catalog[2].name}, DrawableNames(Catalog, boost));
  }
}
