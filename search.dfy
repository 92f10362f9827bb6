/**
 * The search of the normal selection for an outfit the user has not had
 * yet: four nested loops over outerwear, shirt, trousers and shoes; at each
 * step a coin picks the shirt or the outerwear as the upper item, and the
 * triple is taken when its hash is not yet an outfit id of the user.
 *
 * The `break` leaves only the shoes loop, so a later (outerwear, shirt,
 * trousers) step that finds a new triple replaces the one found before: the
 * search keeps the LAST triple found, one per step at most. The functions
 * below follow the loops level by level, threading the triple chosen so far
 * and the number of random draws made.
 */
module Search {
  import opened Builtins
  import opened Wardrobe
  import opened Store

  /** What the search reads besides the pools: the user's outfit ids, `hashCode` and the random source. */
  datatype Context = Context(ids: seq<int>, hash: string -> int, source: RandomSource)

  /** The search state: the triple chosen so far (`undefined` is `None`) and the random draws made. */
  datatype Scan = Scan(chosen: Option<Triple>, draws: nat)

  /** `randomInt(2)` at draw `k`, read as a JavaScript condition: 1 picks the shirt. */
  predicate PicksShirt(source: RandomSource, k: nat)
  {
    RandomInt(source, k, 2) != 0
  }

  /** The triple examined at one step; its key is the one hashed. */
  function Candidate(outerwear: Clothing, shirt: Clothing, trousers: Clothing, shoes: Clothing, pickShirt: bool): Triple
  {
    Triple(if pickShirt then shirt else outerwear, trousers, shoes)
  }

  /** The triple's hash is not yet one of the user's outfit ids. */
  predicate Novel(ctx: Context, t: Triple)
  {
    ctx.hash(Key(t)) !in ctx.ids
  }

  /** The innermost loop: the first shoes whose candidate is novel, then `break`. */
  function ScanShoes(ctx: Context, o: Clothing, s: Clothing, t: Clothing, shoes: seq<Clothing>, draws: nat): Scan
  {
    if shoes == [] then Scan(None, draws)
    else
      var c := Candidate(o, s, t, shoes[0], PicksShirt(ctx.source, draws));
      if Novel(ctx, c) then Scan(Some(c), draws + 1)
      else ScanShoes(ctx, o, s, t, shoes[1..], draws + 1)
  }

  /** The trousers loop: each step runs the shoes loop; a triple it finds replaces the one chosen before. */
  function ScanTrousers(ctx: Context, o: Clothing, s: Clothing, trousers: seq<Clothing>, shoes: seq<Clothing>, st: Scan): Scan
  {
    if trousers == [] then st
    else
      var r := ScanShoes(ctx, o, s, trousers[0], shoes, st.draws);
      ScanTrousers(ctx, o, s, trousers[1..], shoes, Scan(if r.chosen.Some? then r.chosen else st.chosen, r.draws))
  }

  /** The shirt loop. */
  function ScanShirts(ctx: Context, o: Clothing, shirts: seq<Clothing>, p: Pools, st: Scan): Scan
  {
    if shirts == [] then st
    else ScanShirts(ctx, o, shirts[1..], p, ScanTrousers(ctx, o, shirts[0], p.trousers, p.shoes, st))
  }

  /** The outerwear loop. */
  function ScanOuterwear(ctx: Context, outerwear: seq<Clothing>, p: Pools, st: Scan): Scan
  {
    if outerwear == [] then st
    else ScanOuterwear(ctx, outerwear[1..], p, ScanShirts(ctx, outerwear[0], p.shirt, p, st))
  }

  /** The whole search, starting with nothing chosen at draw number `draws`. */
  function SearchOutfit(ctx: Context, p: Pools, draws: nat): Scan
  {
    ScanOuterwear(ctx, p.outerwear, p, Scan(None, draws))
  }

  /**
   * A triple the search may choose: novel, trousers and shoes from their
   * pools, and an upper item that some coin draw picked out of an
   * (outerwear, shirt) pair of the pools.
   */
  ghost predicate Admissible(ctx: Context, p: Pools, t: Triple)
  {
    && Novel(ctx, t)
    && t.trousers in p.trousers
    && t.shoes in p.shoes
    && exists o, s, k :: o in p.outerwear && s in p.shirt && t == Candidate(o, s, t.trousers, t.shoes, PicksShirt(ctx.source, k))
  }

  lemma {:induction false} ScanShoesSound(ctx: Context, p: Pools, o: Clothing, s: Clothing, t: Clothing, shoes: seq<Clothing>, draws: nat)
    requires o in p.outerwear && s in p.shirt && t in p.trousers
    requires forall h :: h in shoes ==> h in p.shoes
    ensures ScanShoes(ctx, o, s, t, shoes, draws).draws >= draws
    ensures ScanShoes(ctx, o, s, t, shoes, draws).chosen.Some? ==> Admissible(ctx, p, ScanShoes(ctx, o, s, t, shoes, draws).chosen.value)
  {
    if shoes != [] {
      var c := Candidate(o, s, t, shoes[0], PicksShirt(ctx.source, draws));
      if Novel(ctx, c) {
        assert shoes[0] in shoes;
        assert c == Candidate(o, s, c.trousers, c.shoes, PicksShirt(ctx.source, draws));
      } else {
        ScanShoesSound(ctx, p, o, s, t, shoes[1..], draws + 1);
      }
    }
  }

  lemma {:induction false} ScanTrousersSound(ctx: Context, p: Pools, o: Clothing, s: Clothing, trousers: seq<Clothing>, st: Scan)
    requires o in p.outerwear && s in p.shirt
    requires forall t :: t in trousers ==> t in p.trousers
    requires st.chosen.Some? ==> Admissible(ctx, p, st.chosen.value)
    ensures ScanTrousers(ctx, o, s, trousers, p.shoes, st).draws >= st.draws
    ensures ScanTrousers(ctx, o, s, trousers, p.shoes, st).chosen.Some? ==> Admissible(ctx, p, ScanTrousers(ctx, o, s, trousers, p.shoes, st).chosen.value)
  {
    if trousers != [] {
      assert trousers[0] in trousers;
      var r := ScanShoes(ctx, o, s, trousers[0], p.shoes, st.draws);
      ScanShoesSound(ctx, p, o, s, trousers[0], p.shoes, st.draws);
      ScanTrousersSound(ctx, p, o, s, trousers[1..], Scan(if r.chosen.Some? then r.chosen else st.chosen, r.draws));
    }
  }

  lemma {:induction false} ScanShirtsSound(ctx: Context, p: Pools, o: Clothing, shirts: seq<Clothing>, st: Scan)
    requires o in p.outerwear
    requires forall s :: s in shirts ==> s in p.shirt
    requires st.chosen.Some? ==> Admissible(ctx, p, st.chosen.value)
    ensures ScanShirts(ctx, o, shirts, p, st).draws >= st.draws
    ensures ScanShirts(ctx, o, shirts, p, st).chosen.Some? ==> Admissible(ctx, p, ScanShirts(ctx, o, shirts, p, st).chosen.value)
  {
    if shirts != [] {
      assert shirts[0] in shirts;
      ScanTrousersSound(ctx, p, o, shirts[0], p.trousers, st);
      ScanShirtsSound(ctx, p, o, shirts[1..], ScanTrousers(ctx, o, shirts[0], p.trousers, p.shoes, st));
    }
  }

  lemma {:induction false} ScanOuterwearSound(ctx: Context, p: Pools, outerwear: seq<Clothing>, st: Scan)
    requires forall o :: o in outerwear ==> o in p.outerwear
    requires st.chosen.Some? ==> Admissible(ctx, p, st.chosen.value)
    ensures ScanOuterwear(ctx, outerwear, p, st).draws >= st.draws
    ensures ScanOuterwear(ctx, outerwear, p, st).chosen.Some? ==> Admissible(ctx, p, ScanOuterwear(ctx, outerwear, p, st).chosen.value)
  {
    if outerwear != [] {
      assert outerwear[0] in outerwear;
      ScanShirtsSound(ctx, p, outerwear[0], p.shirt, st);
      ScanOuterwearSound(ctx, p, outerwear[1..], ScanShirts(ctx, outerwear[0], p.shirt, p, st));
    }
  }

  /**
   * Whatever the search chooses is a triple of the pools whose hash is not
   * an outfit id of the user yet, with the upper item the shirt or the
   * outerwear of its step as the coin said.
   */
  lemma SearchSound(ctx: Context, p: Pools, draws: nat)
    ensures SearchOutfit(ctx, p, draws).draws >= draws
    ensures SearchOutfit(ctx, p, draws).chosen.Some? ==>
      var t := SearchOutfit(ctx, p, draws).chosen.value;
      && ctx.hash(Key(t)) !in ctx.ids
      && (t.upper in p.outerwear || t.upper in p.shirt)
      && t.trousers in p.trousers
      && t.shoes in p.shoes
      && Admissible(ctx, p, t)
  {
    ScanOuterwearSound(ctx, p, p.outerwear, Scan(None, draws));
  }

  lemma {:induction false} ScanOuterwearWithoutShirts(ctx: Context, outerwear: seq<Clothing>, p: Pools, st: Scan)
    requires p.shirt == []
    ensures ScanOuterwear(ctx, outerwear, p, st) == st
  {
    if outerwear != [] {
      ScanOuterwearWithoutShirts(ctx, outerwear[1..], p, st);
    }
  }

  /**
   * The loops pair every outerwear with every shirt, so nothing is chosen
   * when either pool is empty, even if the other one is not, and no random
   * number is drawn.
   */
  lemma SearchNeedsOuterwearAndShirt(ctx: Context, p: Pools, draws: nat)
    requires p.outerwear == [] || p.shirt == []
    ensures SearchOutfit(ctx, p, draws) == Scan(None, draws)
  {
    if p.shirt == [] {
      ScanOuterwearWithoutShirts(ctx, p.outerwear, p, Scan(None, draws));
    }
  }

  /** Both candidates of a step, with the shirt and with the outerwear, are novel. */
  predicate BothNovel(ctx: Context, o: Clothing, s: Clothing, t: Clothing, h: Clothing)
  {
    Novel(ctx, Triple(o, t, h)) && Novel(ctx, Triple(s, t, h))
  }

  lemma {:induction false} ScanShoesFinds(ctx: Context, o: Clothing, s: Clothing, t: Clothing, shoes: seq<Clothing>, draws: nat)
    requires exists h :: h in shoes && BothNovel(ctx, o, s, t, h)
    ensures ScanShoes(ctx, o, s, t, shoes, draws).chosen.Some?
  {
    var c := Candidate(o, s, t, shoes[0], PicksShirt(ctx.source, draws));
    if !Novel(ctx, c) {
      var h :| h in shoes && BothNovel(ctx, o, s, t, h);
      assert h != shoes[0];
      assert h in shoes[1..];
      ScanShoesFinds(ctx, o, s, t, shoes[1..], draws + 1);
    }
  }

  lemma {:induction false} ScanTrousersKeeps(ctx: Context, o: Clothing, s: Clothing, trousers: seq<Clothing>, shoes: seq<Clothing>, st: Scan)
    requires st.chosen.Some?
    ensures ScanTrousers(ctx, o, s, trousers, shoes, st).chosen.Some?
  {
    if trousers != [] {
      var r := ScanShoes(ctx, o, s, trousers[0], shoes, st.draws);
      ScanTrousersKeeps(ctx, o, s, trousers[1..], shoes, Scan(if r.chosen.Some? then r.chosen else st.chosen, r.draws));
    }
  }

  lemma {:induction false} ScanTrousersFinds(ctx: Context, o: Clothing, s: Clothing, trousers: seq<Clothing>, shoes: seq<Clothing>, st: Scan)
    requires st.chosen.Some? || exists t, h :: t in trousers && h in shoes && BothNovel(ctx, o, s, t, h)
    ensures ScanTrousers(ctx, o, s, trousers, shoes, st).chosen.Some?
  {
    if st.chosen.Some? {
      ScanTrousersKeeps(ctx, o, s, trousers, shoes, st);
    } else {
      var t, h :| t in trousers && h in shoes && BothNovel(ctx, o, s, t, h);
      var r := ScanShoes(ctx, o, s, trousers[0], shoes, st.draws);
      var next := Scan(if r.chosen.Some? then r.chosen else st.chosen, r.draws);
      if t == trousers[0] {
        ScanShoesFinds(ctx, o, s, trousers[0], shoes, st.draws);
        ScanTrousersKeeps(ctx, o, s, trousers[1..], shoes, next);
      } else {
        assert t in trousers[1..];
        ScanTrousersFinds(ctx, o, s, trousers[1..], shoes, next);
      }
    }
  }

  lemma {:induction false} ScanShirtsKeeps(ctx: Context, o: Clothing, shirts: seq<Clothing>, p: Pools, st: Scan)
    requires st.chosen.Some?
    ensures ScanShirts(ctx, o, shirts, p, st).chosen.Some?
  {
    if shirts != [] {
      ScanTrousersKeeps(ctx, o, shirts[0], p.trousers, p.shoes, st);
      ScanShirtsKeeps(ctx, o, shirts[1..], p, ScanTrousers(ctx, o, shirts[0], p.trousers, p.shoes, st));
    }
  }

  lemma {:induction false} ScanShirtsFinds(ctx: Context, o: Clothing, shirts: seq<Clothing>, p: Pools, st: Scan)
    requires st.chosen.Some? || exists s, t, h :: s in shirts && t in p.trousers && h in p.shoes && BothNovel(ctx, o, s, t, h)
    ensures ScanShirts(ctx, o, shirts, p, st).chosen.Some?
  {
    if st.chosen.Some? {
      ScanShirtsKeeps(ctx, o, shirts, p, st);
    } else {
      var s, t, h :| s in shirts && t in p.trousers && h in p.shoes && BothNovel(ctx, o, s, t, h);
      var next := ScanTrousers(ctx, o, shirts[0], p.trousers, p.shoes, st);
      if s == shirts[0] {
        ScanTrousersFinds(ctx, o, shirts[0], p.trousers, p.shoes, st);
        ScanShirtsKeeps(ctx, o, shirts[1..], p, next);
      } else {
        assert s in shirts[1..];
        ScanShirtsFinds(ctx, o, shirts[1..], p, next);
      }
    }
  }

  lemma {:induction false} ScanOuterwearKeeps(ctx: Context, outerwear: seq<Clothing>, p: Pools, st: Scan)
    requires st.chosen.Some?
    ensures ScanOuterwear(ctx, outerwear, p, st).chosen.Some?
  {
    if outerwear != [] {
      ScanShirtsKeeps(ctx, outerwear[0], p.shirt, p, st);
      ScanOuterwearKeeps(ctx, outerwear[1..], p, ScanShirts(ctx, outerwear[0], p.shirt, p, st));
    }
  }

  lemma {:induction false} ScanOuterwearFinds(ctx: Context, outerwear: seq<Clothing>, p: Pools, st: Scan)
    requires st.chosen.Some? || exists o, s, t, h :: o in outerwear && s in p.shirt && t in p.trousers && h in p.shoes && BothNovel(ctx, o, s, t, h)
    ensures ScanOuterwear(ctx, outerwear, p, st).chosen.Some?
  {
    if st.chosen.Some? {
      ScanOuterwearKeeps(ctx, outerwear, p, st);
    } else {
      var o, s, t, h :| o in outerwear && s in p.shirt && t in p.trousers && h in p.shoes && BothNovel(ctx, o, s, t, h);
      var next := ScanShirts(ctx, outerwear[0], p.shirt, p, st);
      if o == outerwear[0] {
        ScanShirtsFinds(ctx, outerwear[0], p.shirt, p, st);
        ScanOuterwearKeeps(ctx, outerwear[1..], p, next);
      } else {
        assert o in outerwear[1..];
        ScanOuterwearFinds(ctx, outerwear[1..], p, next);
      }
    }
  }

  /**
   * The search misses nothing that the coin cannot spoil: when some
   * (outerwear, shirt, trousers, shoes) step has both of its candidates
   * novel, a triple is chosen.
   */
  lemma SearchFindsWhenBothNovel(ctx: Context, p: Pools, draws: nat, o: Clothing, s: Clothing, t: Clothing, h: Clothing)
    requires o in p.outerwear && s in p.shirt && t in p.trousers && h in p.shoes
    requires BothNovel(ctx, o, s, t, h)
    ensures SearchOutfit(ctx, p, draws).chosen.Some?
  {
    ScanOuterwearFinds(ctx, p.outerwear, p, Scan(None, draws));
  }

  /**
   * The `break` leaves only the shoes loop: with no outfit stored yet and two
   * trousers, the triple found with the first trousers is replaced by the one
   * found with the second, so the search does not keep the first novel triple.
   */
  lemma SearchKeepsLastFound(hash: string -> int, source: RandomSource, draws: nat, o: Clothing, s: Clothing, t1: Clothing, t2: Clothing, h: Clothing)
    requires t1 != t2
    ensures var ctx := Context([], hash, source);
      && Novel(ctx, Candidate(o, s, t1, h, PicksShirt(source, draws)))
      && SearchOutfit(ctx, Pools([o], [s], [t1, t2], [h]), draws)
         == Scan(Some(Candidate(o, s, t2, h, PicksShirt(source, draws + 1))), draws + 2)
  {
    var ctx := Context([], hash, source);
    var p := Pools([o], [s], [t1, t2], [h]);
    var first := ScanShoes(ctx, o, s, t1, [h], draws);
    assert first == Scan(Some(Candidate(o, s, t1, h, PicksShirt(source, draws))), draws + 1);
    var second := ScanShoes(ctx, o, s, t2, [h], draws + 1);
    assert second == Scan(Some(Candidate(o, s, t2, h, PicksShirt(source, draws + 1))), draws + 2);
    assert [t1, t2][1..] == [t2];
    var afterFirst := Scan(first.chosen, draws + 1);
    assert ScanTrousers(ctx, o, s, [t1, t2], [h], Scan(None, draws)) == ScanTrousers(ctx, o, s, [t2], [h], afterFirst);
    assert ScanTrousers(ctx, o, s, [t2], [h], afterFirst) == ScanTrousers(ctx, o, s, [], [h], second);
    assert ScanTrousers(ctx, o, s, [t1, t2], [h], Scan(None, draws)) == second;
    assert [s][1..] == [] && [o][1..] == [];
    assert ScanShirts(ctx, o, [s], p, Scan(None, draws)) == ScanShirts(ctx, o, [], p, second);
    assert ScanShirts(ctx, o, [s], p, Scan(None, draws)) == second;
    assert ScanOuterwear(ctx, [o], p, Scan(None, draws)) == ScanOuterwear(ctx, [], p, second);
  }

  /**
   * Within one trousers step the `break` keeps the first novel shoes: with
   * two shoes that are both novel, the first one is chosen and the second
   * is never drawn for.
   */
  lemma SearchKeepsFirstShoe(hash: string -> int, source: RandomSource, draws: nat, o: Clothing, s: Clothing, t: Clothing, h1: Clothing, h2: Clothing)
    ensures var ctx := Context([], hash, source);
      SearchOutfit(ctx, Pools([o], [s], [t], [h1, h2]), draws)
        == Scan(Some(Candidate(o, s, t, h1, PicksShirt(source, draws))), draws + 1)
  {
    var ctx := Context([], hash, source);
    var p := Pools([o], [s], [t], [h1, h2]);
    var found := ScanShoes(ctx, o, s, t, [h1, h2], draws);
    assert found == Scan(Some(Candidate(o, s, t, h1, PicksShirt(source, draws))), draws + 1);
    assert [t][1..] == [] && [s][1..] == [] && [o][1..] == [];
    assert ScanTrousers(ctx, o, s, [t], [h1, h2], Scan(None, draws)) == ScanTrousers(ctx, o, s, [], [h1, h2], found);
    assert ScanShirts(ctx, o, [s], p, Scan(None, draws)) == ScanShirts(ctx, o, [], p, found);
    assert ScanOuterwear(ctx, [o], p, Scan(None, draws)) == ScanOuterwear(ctx, [], p, found);
  }
}
