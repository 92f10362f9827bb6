/**
 * `generateOutfit` as it runs: the closure's lists are fields of a
 * generator object, each inner helper is a method, and the loops are
 * loops. Every method is proved equal to the function of `Generation` that
 * specifies it, so the lemmas proved there hold of the running code.
 */
module OutfitsService {
  import opened Builtins
  import opened Wardrobe
  import opened Store
  import opened Seasons
  import opened Events
  import opened Search
  import opened Generation

  class OutfitGenerator {
    const user: string
    const db: Database
    const hash: string -> int
    const source: RandomSource
    /** Random draws made so far. */
    var draws: nat
    var allOutfits: seq<OutfitRecord>
    var todayFormalOutfits: seq<OutfitRecord>
    var todayFormalEvents: seq<string>
    var allClothes: seq<Clothing>

    /** The fixed collaborators, as the specification functions take them. */
    function Collaborators(): Env
    {
      Env(user, hash, source, db.fails)
    }

    /** A generator for one request: every list starts empty. */
    constructor (user: string, db: Database, hash: string -> int, source: RandomSource)
      ensures this.user == user && this.db == db && this.hash == hash && this.source == source
      ensures draws == 0
      ensures allOutfits == [] && todayFormalOutfits == [] && todayFormalEvents == [] && allClothes == []
    {
      this.user := user;
      this.db := db;
      this.hash := hash;
      this.source := source;
      draws := 0;
      allOutfits := [];
      todayFormalOutfits := [];
      todayFormalEvents := [];
      allClothes := [];
    }

    /** `randomInt(n)`: the next draw of the random source, reduced to `[0, n)`. */
    method Draw(n: nat) returns (r: nat)
      requires n > 0
      modifies this`draws
      ensures r == RandomInt(source, old(draws), n) && r < n
      ensures draws == old(draws) + 1
    {
      r := RandomInt(source, draws, n);
      draws := draws + 1;
    }

    /** `getAllClothes`: a failing store call is caught and keeps the previous list. */
    method GetAllClothes()
      modifies this`allClothes, db`calls
      ensures Progress(allClothes, db.calls, draws) == FetchClothes(Collaborators(), db.clothes, Progress(old(allClothes), old(db.calls), draws))
    {
      var found := db.FindClothes(user);
      if found.Some? {
        allClothes := found.value;
      }
    }

    /** `getAllOutfits`: a failing store call is caught and keeps the previous list. */
    method GetAllOutfits()
      modifies this`allOutfits, db`calls
      ensures allOutfits == FetchOutfits(Collaborators(), db.outfits, old(allOutfits), old(db.calls))
      ensures db.calls == old(db.calls) + 1
    {
      var found := db.FindOutfitsOf(user);
      if found.Some? {
        allOutfits := found.value;
      }
    }

    /** `getTodayFormalOutfits`; the exception of an invalid date escapes and leaves the list as it was. */
    method GetTodayFormalOutfits(today: string) returns (error: Option<string>)
      modifies this`todayFormalOutfits
      ensures match TodayFormalOutfits(allOutfits, today)
        case Thrown(e) => error == Some(e) && todayFormalOutfits == old(todayFormalOutfits)
        case Value(v) => error.None? && todayFormalOutfits == v
    {
      match TodayFormalOutfits(allOutfits, today)
      case Thrown(e) =>
        error := Some(e);
      case Value(v) =>
        todayFormalOutfits := v;
        error := None;
    }

    /**
     * `getTodayFormalEvents`: a failing calendar call is caught and adds
     * nothing; an unreadable reply throws; otherwise each summary with a
     * keyword among its words is appended once.
     */
    method GetTodayFormalEvents(calendar: CalendarReply) returns (error: Option<string>)
      modifies this`todayFormalEvents
      ensures error == if calendar.Malformed? then Some(calendar.error) else None
      ensures todayFormalEvents ==
        if calendar.Listed? then old(todayFormalEvents) + FormalSummaries(calendar.summaries) else old(todayFormalEvents)
    {
      match calendar
      case CalendarDown =>
        error := None;
      case Malformed(e) =>
        error := Some(e);
      case Listed(events) =>
        var i := 0;
        while i < |events|
          invariant 0 <= i <= |events|
          invariant todayFormalEvents == old(todayFormalEvents) + Filter(events[..i], IsFormalSummary)
        {
          var e := events[i];
          PushIfFormal(e);
          FilterSnoc(events[..i], e, IsFormalSummary);
          assert events[..i + 1] == events[..i] + [e];
          i := i + 1;
        }
        assert events[..|events|] == events;
        error := None;
    }

    /** The `forEach` callback: appends the summary when one of its words is a keyword, at most once. */
    method PushIfFormal(e: string)
      modifies this`todayFormalEvents
      ensures todayFormalEvents == old(todayFormalEvents) + if IsFormalSummary(e) then [e] else []
    {
      var keyword := Split(Lower(e), ' ');
      assert keyword == Words(e);
      var j := 0;
      while j < |keyword|
        invariant 0 <= j <= |keyword|
        invariant todayFormalEvents == old(todayFormalEvents)
        invariant forall k :: 0 <= k < j ==> keyword[k] !in FORMAL_KEYWORDS
      {
        if keyword[j] in FORMAL_KEYWORDS {
          todayFormalEvents := todayFormalEvents + [e];
          return;
        }
        j := j + 1;
      }
    }

    /** `createNormalOutfit`. */
    method CreateNormalOutfit(month: MonthIndex) returns (d: Option<Draft>)
      modifies this`allClothes, this`draws, db`calls
      ensures Drafting(d, Progress(allClothes, db.calls, draws)) ==
        NormalDraft(Collaborators(), db.clothes, db.outfits, month, Progress(old(allClothes), old(db.calls), old(draws)))
    {
      NormalDraftSteps(Collaborators(), db.clothes, db.outfits, month, Progress(allClothes, db.calls, draws));
      GetAllClothes();
      var p := NormalPools(allClothes);
      if !Sufficient(p) {
        return Some(Declined(ADD_MORE_CLOTHES, None));
      }
      var season := SeasonNorth(month);
      var q := SeasonPools(p, season);
      var found := db.FindOutfitsOf(user);
      if found.None? {
        // `Outfit.find` here is outside any `try`: its exception escapes.
        return None;
      }
      var chosen := FindNewOutfit(q, Ids(found.value));
      d := Some(Drafted(chosen, [NORMAL], [season], None));
    }

    /** The four nested loops of `createNormalOutfit`. */
    method FindNewOutfit(q: Pools, ids: seq<int>) returns (chosen: Option<Triple>)
      modifies this`draws
      ensures Scan(chosen, draws) == SearchOutfit(Context(ids, hash, source), q, old(draws))
    {
      ghost var ctx := Context(ids, hash, source);
      chosen := None;
      var a := 0;
      while a < |q.outerwear|
        invariant 0 <= a <= |q.outerwear|
        invariant ScanOuterwear(ctx, q.outerwear[a..], q, Scan(chosen, draws)) == SearchOutfit(ctx, q, old(draws))
      {
        var outerwear := q.outerwear[a];
        ghost var atOuterwear := Scan(chosen, draws);
        var b := 0;
        while b < |q.shirt|
          invariant 0 <= b <= |q.shirt|
          invariant ScanShirts(ctx, outerwear, q.shirt[b..], q, Scan(chosen, draws)) == ScanShirts(ctx, outerwear, q.shirt, q, atOuterwear)
        {
          var shirt := q.shirt[b];
          ghost var atShirt := Scan(chosen, draws);
          var c := 0;
          while c < |q.trousers|
            invariant 0 <= c <= |q.trousers|
            invariant ScanTrousers(ctx, outerwear, shirt, q.trousers[c..], q.shoes, Scan(chosen, draws)) ==
                      ScanTrousers(ctx, outerwear, shirt, q.trousers, q.shoes, atShirt)
          {
            var trousers := q.trousers[c];
            ghost var atTrousers := Scan(chosen, draws);
            ghost var steps := ScanShoes(ctx, outerwear, shirt, trousers, q.shoes, draws);
            var d := 0;
            while d < |q.shoes|
              invariant 0 <= d <= |q.shoes|
              invariant chosen == atTrousers.chosen
              invariant ScanShoes(ctx, outerwear, shirt, trousers, q.shoes[d..], draws) == steps
            {
              var shoes := q.shoes[d];
              assert q.shoes[d..][0] == shoes && q.shoes[d..][1..] == q.shoes[d + 1..];
              var random := Draw(2);
              var outfitId := if random != 0 then hash(shirt.id + trousers.id + shoes.id) else hash(outerwear.id + trousers.id + shoes.id);
              if outfitId !in ids {
                chosen := Some(Triple(if random != 0 then shirt else outerwear, trousers, shoes));
                break;
              }
              d := d + 1;
            }
            assert Scan(chosen, draws) == Scan(if steps.chosen.Some? then steps.chosen else atTrousers.chosen, steps.draws);
            assert q.trousers[c..][0] == trousers && q.trousers[c..][1..] == q.trousers[c + 1..];
            c := c + 1;
          }
          assert q.shirt[b..][0] == shirt && q.shirt[b..][1..] == q.shirt[b + 1..];
          b := b + 1;
        }
        assert q.outerwear[a..][0] == outerwear && q.outerwear[a..][1..] == q.outerwear[a + 1..];
        a := a + 1;
      }
    }

    /** `createFormalOutfit`. */
    method CreateFormalOutfit(month: MonthIndex) returns (d: Option<Draft>)
      modifies this`allClothes, this`draws, db`calls
      ensures Drafting(d, Progress(allClothes, db.calls, draws)) ==
        FormalDraft(Collaborators(), db.clothes, db.outfits, month, todayFormalEvents, Progress(old(allClothes), old(db.calls), old(draws)))
    {
      ghost var spec := FormalDraft(Collaborators(), db.clothes, db.outfits, month, todayFormalEvents, Progress(allClothes, db.calls, draws));
      GetAllClothes();
      ghost var fetched := Progress(allClothes, db.calls, draws);
      var p := FormalPools(allClothes);
      if !Sufficient(p) {
        var warning := NoFormalClothesWarning();
        ghost var normal := NormalDraft(Collaborators(), db.clothes, db.outfits, month, fetched);
        var result := CreateNormalOutfit(month);
        assert normal == Drafting(result, Progress(allClothes, db.calls, draws));
        d := WithWarning(result, warning);
        assert spec == Drafting(WithWarning(normal.draft, FormalWarning(todayFormalEvents)), normal.progress);
        return;
      }
      ghost var k := draws;
      var chosen := PickFormal(p);
      d := Some(Drafted(Some(chosen), [FORMAL], [ALL_SEASONS], None));
      assert spec == Drafting(Some(Drafted(Some(FormalPick(p, source, k).0), [FORMAL], [ALL_SEASONS], None)), fetched.(draws := FormalPick(p, source, k).1));
    }

    /** The warning of `createFormalOutfit`: the sentence, then each of today's formal events on its own line. */
    method NoFormalClothesWarning() returns (warning: string)
      ensures warning == FormalWarning(todayFormalEvents)
    {
      warning := NO_FORMAL_CLOTHES_WARNING;
      var i := 0;
      while i < |todayFormalEvents|
        invariant 0 <= i <= |todayFormalEvents|
        invariant warning == NO_FORMAL_CLOTHES_WARNING + EventLines(todayFormalEvents[..i])
      {
        assert todayFormalEvents[..i + 1][..i] == todayFormalEvents[..i];
        warning := warning + todayFormalEvents[i] + "\n";
        i := i + 1;
      }
      assert todayFormalEvents[..|todayFormalEvents|] == todayFormalEvents;
    }

    /** The random choice of `createFormalOutfit` from sufficient formal pools. */
    method PickFormal(p: Pools) returns (chosen: Triple)
      requires Sufficient(p)
      modifies this`draws
      ensures (chosen, draws) == FormalPick(p, source, old(draws))
    {
      var upper: Clothing;
      if |p.outerwear| == 0 {
        var i := Draw(|p.shirt|);
        upper := p.shirt[i];
      } else if |p.shirt| == 0 {
        var i := Draw(|p.outerwear|);
        upper := p.outerwear[i];
      } else {
        var coin := Draw(2);
        if coin != 0 {
          var i := Draw(|p.shirt|);
          upper := p.shirt[i];
        } else {
          var i := Draw(|p.outerwear|);
          upper := p.outerwear[i];
        }
      }
      var ti := Draw(|p.trousers|);
      var si := Draw(|p.shoes|);
      chosen := Triple(upper, p.trousers[ti], p.shoes[si]);
    }

    /** `saveOutfit`. */
    method SaveOutfit(result: Draft, now: Timestamp) returns (r: Response)
      requires db.Valid()
      modifies db`calls, db`outfits
      ensures db.Valid()
      ensures Saving(r, db.outfits, db.calls) == SaveResult(Collaborators(), result, old(db.outfits), old(db.calls), now)
    {
      if result.Declined? {
        return Failure(GENERATE_FAILED, None);
      }
      if result.chosen.None? {
        // Reading `.id` of `undefined` throws, and nothing catches it.
        return Crashed;
      }
      var t := result.chosen.value;
      var id := hash(t.upper.id + t.trousers.id + t.shoes.id);
      var existing := db.FindOutfitById(id);
      if existing.None? {
        return Failure(SEARCH_FAILED, None);
      }
      if |existing.value| > 0 {
        var e := existing.value[0];
        return Success(GENERATED, result.warning, OutfitView(e.id, e.clothes, e.created, result.occasions, result.seasons, e.opinion, user, t));
      }
      var newOutfit := OutfitRecord(id, [t.upper.id, t.trousers.id, t.shoes.id], result.occasions, result.seasons, UNKNOWN_OPINION, user, now);
      var ok := db.Save(newOutfit);
      if !ok {
        return Failure(SAVE_FAILED, None);
      }
      r := Success(GENERATED, result.warning,
        OutfitView(newOutfit.id, newOutfit.clothes, newOutfit.created, result.occasions, result.seasons, newOutfit.opinion, user, t));
    }

    /** The `try` at the start of `generateOutfit`: the outfits, today's formal outfits and today's formal events. */
    method Initialize(today: string, calendar: CalendarReply) returns (error: Option<string>)
      modifies this`allOutfits, this`todayFormalOutfits, this`todayFormalEvents, db`calls
      ensures match SetupResult(Collaborators(), db.outfits, old(allOutfits), old(todayFormalEvents), old(db.calls), today, calendar)
        case SetupFailed(e, c) => error == Some(e) && db.calls == c
        case Ready(all, todays, formalEvents, c) =>
          && error.None? && db.calls == c
          && allOutfits == all && todayFormalOutfits == todays && todayFormalEvents == formalEvents
    {
      GetAllOutfits();
      error := GetTodayFormalOutfits(today);
      if error.None? {
        error := GetTodayFormalEvents(calendar);
      }
    }

    /** The choice between formal and normal selection, with its three branches. */
    method Select(month: MonthIndex) returns (result: Option<Draft>)
      modifies this`allClothes, this`draws, db`calls
      ensures Drafting(result, Progress(allClothes, db.calls, draws)) ==
        var pr := Progress(old(allClothes), old(db.calls), old(draws));
        if NeedsFormal(todayFormalOutfits, todayFormalEvents) then FormalDraft(Collaborators(), db.clothes, db.outfits, month, todayFormalEvents, pr)
        else NormalDraft(Collaborators(), db.clothes, db.outfits, month, pr)
    {
      if |todayFormalOutfits| == 0 && |todayFormalEvents| > 0 {
        result := CreateFormalOutfit(month);
      } else if |todayFormalOutfits| == 0 && |todayFormalEvents| == 0 {
        result := CreateNormalOutfit(month);
      } else {
        result := CreateNormalOutfit(month);
      }
    }

    /** `generateOutfit`: set-up, the choice of selection, and saving. */
    method GenerateOutfit(today: string, month: MonthIndex, calendar: CalendarReply, now: Timestamp) returns (r: Response)
      requires db.Valid()
      modifies this`allOutfits, this`todayFormalOutfits, this`todayFormalEvents, this`allClothes, this`draws
      modifies db`calls, db`outfits
      ensures db.Valid()
      ensures Run(r, db.outfits, db.calls, draws) ==
        GenerateResult(Collaborators(), db.clothes, old(db.outfits), old(allOutfits), old(todayFormalEvents), old(allClothes),
                       old(db.calls), old(draws), today, month, calendar, now)
    {
      var error := Initialize(today, calendar);
      if error.Some? {
        return Failure(INIT_FAILED, error);
      }
      var result := Select(month);
      if result.None? {
        return Crashed;
      }
      r := SaveOutfit(result.value, now);
    }
  }
}
