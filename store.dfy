/**
 * The generator's collaborators: the document store holding clothes and
 * outfits, and the random-number helper. Both are oracles: which store calls
 * throw and which numbers are drawn are fixed by functions of the call
 * number, so every possible run is covered by some choice of them.
 */
module Store {
  import opened Builtins
  import opened Wardrobe

  /** `randomInt` draws from this: the k-th call, counting from 0, sees `source(k)`. */
  type RandomSource = nat -> nat

  /** `randomInt(n)` at call number `k`: some integer in `[0, n)`. */
  function RandomInt(source: RandomSource, k: nat, n: nat): (r: nat)
    requires n > 0
    ensures r < n
  {
    source(k) % n
  }

  /** Every in-range answer is possible: some source makes call `k` return `r`. */
  lemma RandomIntCoversRange(k: nat, n: nat, r: nat)
    requires r < n
    ensures RandomInt((i: nat) => r, k, n) == r
  {
    var source: RandomSource := (i: nat) => r;
    assert source(k) == r;
    assert r % n == r by {
      assert 0 <= r < n;
    }
  }

  /**
   * The clothes and outfit collections. `fails(k)` says whether the k-th
   * store call throws; a call that throws changes nothing.
   */
  class Database {
    var clothes: seq<Clothing>
    var outfits: seq<OutfitRecord>
    const fails: nat -> bool
    var calls: nat

    /** Outfit ids are primary keys. */
    ghost predicate Valid()
      reads this
    {
      UniqueIds(outfits)
    }

    constructor (clothes: seq<Clothing>, outfits: seq<OutfitRecord>, fails: nat -> bool)
      requires UniqueIds(outfits)
      ensures Valid()
      ensures this.clothes == clothes && this.outfits == outfits && this.fails == fails && calls == 0
    {
      this.clothes := clothes;
      this.outfits := outfits;
      this.fails := fails;
      calls := 0;
    }

    /** `Clothes.find({ user })`: the user's items, or `None` when the call throws. */
    method FindClothes(user: string) returns (r: Option<seq<Clothing>>)
      modifies this`calls
      ensures calls == old(calls) + 1
      ensures r == if fails(old(calls)) then None else Some(ClothesOf(clothes, user))
    {
      r := if fails(calls) then None else Some(ClothesOf(clothes, user));
      calls := calls + 1;
    }

    /** `Outfit.find({ user })`: the user's outfits, or `None` when the call throws. */
    method FindOutfitsOf(user: string) returns (r: Option<seq<OutfitRecord>>)
      modifies this`calls
      ensures calls == old(calls) + 1
      ensures r == if fails(old(calls)) then None else Some(OutfitsOf(outfits, user))
    {
      r := if fails(calls) then None else Some(OutfitsOf(outfits, user));
      calls := calls + 1;
    }

    /** `Outfit.find({ _id })`: the outfits with that id, of any user, or `None` when the call throws. */
    method FindOutfitById(id: int) returns (r: Option<seq<OutfitRecord>>)
      modifies this`calls
      ensures calls == old(calls) + 1
      ensures r == if fails(old(calls)) then None else Some(WithId(outfits, id))
    {
      r := if fails(calls) then None else Some(WithId(outfits, id));
      calls := calls + 1;
    }

    /**
     * `newOutfit.save()`: appends the record unless the call throws; a record
     * whose id is already stored is refused like a thrown duplicate-key error.
     */
    method Save(rec: OutfitRecord) returns (ok: bool)
      requires Valid()
      modifies this`calls, this`outfits
      ensures Valid()
      ensures calls == old(calls) + 1
      ensures ok == (!fails(old(calls)) && rec.id !in Ids(old(outfits)))
      ensures outfits == if ok then old(outfits) + [rec] else old(outfits)
    {
      ok := !fails(calls) && rec.id !in Ids(outfits);
      if ok {
        AppendFreshKeepsUnique(outfits, rec);
        outfits := outfits + [rec];
      }
      calls := calls + 1;
    }
  }
}
