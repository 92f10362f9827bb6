/**
 * The entities the outfit generator works on: clothing items, stored
 * outfits, the chosen triple, and the per-category pools that both the
 * formal and the normal selection build from a user's clothes.
 */
module Wardrobe {
  import opened Builtins

  /** A clothing item as stored for a user; `id` is the item's identifier as text. */
  datatype Clothing = Clothing(
    id: string,
    user: string,
    category: string,
    color: string,
    seasons: seq<string>,
    occasions: seq<string>)

  /** A stored date: a valid instant (kept as its ISO-8601 text) or an invalid date. */
  datatype Timestamp = Instant(iso: string) | InvalidDate

  /** An outfit record in the outfit store. */
  datatype OutfitRecord = OutfitRecord(
    id: int,
    clothes: seq<string>,
    occasions: seq<string>,
    seasons: seq<string>,
    opinion: string,
    user: string,
    created: Timestamp)

  /** The three items an outfit is made of. */
  datatype Triple = Triple(upper: Clothing, trousers: Clothing, shoes: Clothing)

  /** The text the outfit id is hashed from: the three item ids concatenated. */
  function Key(t: Triple): string
  {
    t.upper.id + t.trousers.id + t.shoes.id
  }

  /** The item ids an outfit record lists, upper first. */
  function ClothesIds(t: Triple): (r: seq<string>)
    ensures |r| == 3 && r[0] == t.upper.id && r[1] == t.trousers.id && r[2] == t.shoes.id
  {
    [t.upper.id, t.trousers.id, t.shoes.id]
  }

  /** The candidate items of each of the four categories. */
  datatype Pools = Pools(
    outerwear: seq<Clothing>,
    shirt: seq<Clothing>,
    trousers: seq<Clothing>,
    shoes: seq<Clothing>)

  const FORMAL := "formal"
  const ALL_SEASONS := "All"
  const OUTERWEAR := "outerwear"
  const SHIRT := "shirt"
  const TROUSERS := "trousers"
  const SHOES := "shoes"

  predicate IsFormalItem(c: Clothing)
  {
    FORMAL in c.occasions
  }

  predicate IsNormalItem(c: Clothing)
  {
    FORMAL !in c.occasions
  }

  /** The test `c => c.category === category` (case-sensitive). */
  function CategoryIs(category: string): Clothing -> bool
  {
    (c: Clothing) => c.category == category
  }

  /** The items whose category is exactly `category`, in their order. */
  function OfCategory(cs: seq<Clothing>, category: string): seq<Clothing>
  {
    Filter(cs, CategoryIs(category))
  }

  /** Splits items into the four category pools, keeping their order. */
  function CategoryPools(cs: seq<Clothing>): Pools
  {
    Pools(OfCategory(cs, OUTERWEAR), OfCategory(cs, SHIRT), OfCategory(cs, TROUSERS), OfCategory(cs, SHOES))
  }

  /** Each pool holds exactly the items of its category. */
  lemma CategoryPoolsMembers(cs: seq<Clothing>)
    ensures var p := CategoryPools(cs);
      && (forall c :: c in p.outerwear <==> c in cs && c.category == OUTERWEAR)
      && (forall c :: c in p.shirt <==> c in cs && c.category == SHIRT)
      && (forall c :: c in p.trousers <==> c in cs && c.category == TROUSERS)
      && (forall c :: c in p.shoes <==> c in cs && c.category == SHOES)
  {
    FilterMembers(cs, CategoryIs(OUTERWEAR));
    FilterMembers(cs, CategoryIs(SHIRT));
    FilterMembers(cs, CategoryIs(TROUSERS));
    FilterMembers(cs, CategoryIs(SHOES));
  }

  /** The pools of formal items: those whose occasions include "formal". */
  function FormalPools(cs: seq<Clothing>): Pools
  {
    CategoryPools(Filter(cs, IsFormalItem))
  }

  /** The pools of normal items: those whose occasions do not include "formal". */
  function NormalPools(cs: seq<Clothing>): Pools
  {
    CategoryPools(Filter(cs, IsNormalItem))
  }

  /** Enough to dress: an upper item (outerwear or shirt), trousers and shoes. */
  predicate Sufficient(p: Pools)
  {
    (|p.outerwear| > 0 || |p.shirt| > 0) && |p.trousers| > 0 && |p.shoes| > 0
  }

  /** An item is worn in `season` when it lists that season or "All". */
  predicate InSeason(c: Clothing, season: string)
  {
    season in c.seasons || ALL_SEASONS in c.seasons
  }

  /** The season filter's test as a function value. */
  function WornIn(season: string): Clothing -> bool
  {
    (c: Clothing) => InSeason(c, season)
  }

  /** Each pool restricted to the items worn in `season`. */
  function SeasonPools(p: Pools, season: string): Pools
  {
    Pools(Filter(p.outerwear, WornIn(season)), Filter(p.shirt, WornIn(season)),
          Filter(p.trousers, WornIn(season)), Filter(p.shoes, WornIn(season)))
  }

  /** Each filtered pool holds exactly the items of its pool worn in the season. */
  lemma SeasonPoolsMembers(p: Pools, season: string)
    ensures var q := SeasonPools(p, season);
      && (forall c :: c in q.outerwear <==> c in p.outerwear && InSeason(c, season))
      && (forall c :: c in q.shirt <==> c in p.shirt && InSeason(c, season))
      && (forall c :: c in q.trousers <==> c in p.trousers && InSeason(c, season))
      && (forall c :: c in q.shoes <==> c in p.shoes && InSeason(c, season))
  {
    FilterMembers(p.outerwear, WornIn(season));
    FilterMembers(p.shirt, WornIn(season));
    FilterMembers(p.trousers, WornIn(season));
    FilterMembers(p.shoes, WornIn(season));
  }

  /** Membership in the pools of `FormalPools`, stated on the original items. */
  lemma FormalPoolsMembers(cs: seq<Clothing>)
    ensures forall c :: c in FormalPools(cs).outerwear <==> c in cs && IsFormalItem(c) && c.category == OUTERWEAR
    ensures forall c :: c in FormalPools(cs).shirt <==> c in cs && IsFormalItem(c) && c.category == SHIRT
    ensures forall c :: c in FormalPools(cs).trousers <==> c in cs && IsFormalItem(c) && c.category == TROUSERS
    ensures forall c :: c in FormalPools(cs).shoes <==> c in cs && IsFormalItem(c) && c.category == SHOES
  {
    FilterMembers(cs, IsFormalItem);
    CategoryPoolsMembers(Filter(cs, IsFormalItem));
  }

  /** Membership in the pools of `NormalPools`, stated on the original items. */
  lemma NormalPoolsMembers(cs: seq<Clothing>)
    ensures forall c :: c in NormalPools(cs).outerwear <==> c in cs && IsNormalItem(c) && c.category == OUTERWEAR
    ensures forall c :: c in NormalPools(cs).shirt <==> c in cs && IsNormalItem(c) && c.category == SHIRT
    ensures forall c :: c in NormalPools(cs).trousers <==> c in cs && IsNormalItem(c) && c.category == TROUSERS
    ensures forall c :: c in NormalPools(cs).shoes <==> c in cs && IsNormalItem(c) && c.category == SHOES
  {
    FilterMembers(cs, IsNormalItem);
    CategoryPoolsMembers(Filter(cs, IsNormalItem));
  }

  /** Some item of `cs` satisfies the occasion test and has the category. */
  predicate HasItem(cs: seq<Clothing>, formal: bool, category: string)
  {
    exists c :: c in cs && IsFormalItem(c) == formal && c.category == category
  }

  /**
   * The sufficiency test of the formal selection, read on the clothes: a
   * formal upper item, formal trousers and formal shoes all exist.
   */
  lemma FormalSufficientIff(cs: seq<Clothing>)
    ensures Sufficient(FormalPools(cs)) <==>
      (HasItem(cs, true, OUTERWEAR) || HasItem(cs, true, SHIRT)) && HasItem(cs, true, TROUSERS) && HasItem(cs, true, SHOES)
  {
    var p := FormalPools(cs);
    FormalPoolsMembers(cs);
    if |p.outerwear| > 0 { assert p.outerwear[0] in p.outerwear; }
    if |p.shirt| > 0 { assert p.shirt[0] in p.shirt; }
    if |p.trousers| > 0 { assert p.trousers[0] in p.trousers; }
    if |p.shoes| > 0 { assert p.shoes[0] in p.shoes; }
  }

  /**
   * The sufficiency test of the normal selection, read on the clothes: a
   * non-formal upper item, non-formal trousers and non-formal shoes all exist.
   */
  lemma NormalSufficientIff(cs: seq<Clothing>)
    ensures Sufficient(NormalPools(cs)) <==>
      (HasItem(cs, false, OUTERWEAR) || HasItem(cs, false, SHIRT)) && HasItem(cs, false, TROUSERS) && HasItem(cs, false, SHOES)
  {
    var p := NormalPools(cs);
    NormalPoolsMembers(cs);
    if |p.outerwear| > 0 { assert p.outerwear[0] in p.outerwear; }
    if |p.shirt| > 0 { assert p.shirt[0] in p.shirt; }
    if |p.trousers| > 0 { assert p.trousers[0] in p.trousers; }
    if |p.shoes| > 0 { assert p.shoes[0] in p.shoes; }
  }

  /**
   * The season filter runs after the sufficiency test, so sufficient pools
   * can become empty: one shoe not worn in the season empties the shoes pool.
   */
  lemma SeasonFilterCanEmptySufficientPools(o: Clothing, t: Clothing, s: Clothing)
    requires InSeason(o, "Winter") && InSeason(t, "Winter") && s.seasons == ["Summer"]
    ensures Sufficient(Pools([o], [], [t], [s]))
    ensures SeasonPools(Pools([o], [], [t], [s]), "Winter").shoes == []
  {
    var q := SeasonPools(Pools([o], [], [t], [s]), "Winter");
    SeasonPoolsMembers(Pools([o], [], [t], [s]), "Winter");
    assert !InSeason(s, "Winter");
    assert forall c :: c !in q.shoes;
  }

  /** Ids of a sequence of outfit records, in order (`outfits.map(o => o._id)`). */
  function Ids(os: seq<OutfitRecord>): (r: seq<int>)
    ensures |r| == |os|
    ensures forall i :: 0 <= i < |os| ==> r[i] == os[i].id
  {
    if os == [] then [] else [os[0].id] + Ids(os[1..])
  }

  /** No two records share an id: the outfit store's primary-key invariant. */
  predicate UniqueIds(os: seq<OutfitRecord>)
  {
    forall i, j :: 0 <= i < j < |os| ==> os[i].id != os[j].id
  }

  function OfUser(user: string): OutfitRecord -> bool
  {
    (o: OutfitRecord) => o.user == user
  }

  function HasId(id: int): OutfitRecord -> bool
  {
    (o: OutfitRecord) => o.id == id
  }

  function OwnedBy(user: string): Clothing -> bool
  {
    (c: Clothing) => c.user == user
  }

  /** The records of one user (`find({ user })`). */
  function OutfitsOf(os: seq<OutfitRecord>, user: string): seq<OutfitRecord>
  {
    Filter(os, OfUser(user))
  }

  /** The records with one id (`find({ _id })`), whatever their user. */
  function WithId(os: seq<OutfitRecord>, id: int): seq<OutfitRecord>
  {
    Filter(os, HasId(id))
  }

  /** The items of one user (`find({ user })`). */
  function ClothesOf(cs: seq<Clothing>, user: string): seq<Clothing>
  {
    Filter(cs, OwnedBy(user))
  }

  /** What each store query returns: exactly the stored entries that match it. */
  lemma QueryMembers(os: seq<OutfitRecord>, cs: seq<Clothing>, user: string, id: int)
    ensures forall o :: o in OutfitsOf(os, user) <==> o in os && o.user == user
    ensures forall o :: o in WithId(os, id) <==> o in os && o.id == id
    ensures forall c :: c in ClothesOf(cs, user) <==> c in cs && c.user == user
  {
    FilterMembers(os, OfUser(user));
    FilterMembers(os, HasId(id));
    FilterMembers(cs, OwnedBy(user));
  }

  /** A record with the id is found exactly when the id is among the ids. */
  lemma {:induction false} WithIdFound(os: seq<OutfitRecord>, id: int)
    ensures |WithId(os, id)| > 0 <==> id in Ids(os)
  {
    var r := WithId(os, id);
    FilterMembers(os, HasId(id));
    if |r| > 0 {
      assert r[0] in r;
      var i :| 0 <= i < |os| && os[i] == r[0];
      assert Ids(os)[i] == id;
    }
    if id in Ids(os) {
      var i :| 0 <= i < |os| && Ids(os)[i] == id;
      assert os[i] in r;
    }
  }

  /** Adding a record whose id is new keeps the ids unique. */
  lemma AppendFreshKeepsUnique(os: seq<OutfitRecord>, rec: OutfitRecord)
    requires UniqueIds(os)
    requires rec.id !in Ids(os)
    ensures UniqueIds(os + [rec])
  {
    forall i | 0 <= i < |os| ensures os[i].id != rec.id {
      assert Ids(os)[i] == os[i].id;
    }
  }
}
