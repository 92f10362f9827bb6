/**
 * One run of outfit generation as functions of its inputs: the set-up
 * (outfits, today's formal outfits, today's formal events), the choice
 * between formal and normal selection, the two selections, and saving the
 * chosen outfit with de-duplication by id. The `Generator` class runs the
 * same steps imperatively and is proved equal to these functions; the
 * lemmas here state what a run promises.
 */
module Generation {
  import opened Builtins
  import opened Wardrobe
  import opened Store
  import opened Seasons
  import opened Events
  import opened Search

  const INIT_FAILED := "Failed to initialize"
  const ADD_MORE_CLOTHES := "Add more clothes to get outfit!"
  const GENERATE_FAILED := "Failed to generate an outfit"
  const SEARCH_FAILED := "Failed to search outfit"
  const SAVE_FAILED := "Failed to save outfit"
  const GENERATED := "New outfit generated successfully!"
  const NORMAL := "normal"
  const UNKNOWN_OPINION := "unknown"

  /**
   * What the calendar client gave: it threw (caught, so no events), a list
   * of event summaries, or a reply whose reading throws (no event list, or
   * an event without a summary) with the message of that exception.
   */
  datatype CalendarReply = CalendarDown | Listed(summaries: seq<string>) | Malformed(error: string)

  /**
   * The result object of a selection: `success: true` with the chosen items
   * (`None` when the search left them `undefined`), or `success: false` with
   * a message.
   */
  datatype Draft =
    | Drafted(chosen: Option<Triple>, occasions: seq<string>, seasons: seq<string>, warning: Option<string>)
    | Declined(message: string, warning: Option<string>)

  /** The `outfit` object of a successful response. */
  datatype OutfitView = OutfitView(
    id: int,
    clothes: seq<string>,
    created: Timestamp,
    occasions: seq<string>,
    seasons: seq<string>,
    opinion: string,
    user: string,
    chosen: Triple)

  /** What generation returns; `Crashed` is an exception that escapes it. */
  datatype Response =
    | Failure(message: string, warning: Option<string>)
    | Success(message: string, warning: Option<string>, outfit: OutfitView)
    | Crashed

  /** The fixed collaborators of a run: the user, `hashCode`, the random source and the store's failures. */
  datatype Env = Env(user: string, hash: string -> int, source: RandomSource, fails: nat -> bool)

  /** What a selection changes: the fetched clothes and the store-call and random-draw counters. */
  datatype Progress = Progress(allClothes: seq<Clothing>, calls: nat, draws: nat)

  /** A selection's draft (`None` when an exception escaped) and its progress. */
  datatype Drafting = Drafting(draft: Option<Draft>, progress: Progress)

  /** `getAllClothes`: the user's clothes, or the previous list when the store call throws. */
  function FetchClothes(env: Env, stored: seq<Clothing>, pr: Progress): Progress
  {
    if env.fails(pr.calls) then pr.(calls := pr.calls + 1)
    else Progress(ClothesOf(stored, env.user), pr.calls + 1, pr.draws)
  }

  /**
   * `createNormalOutfit`: non-formal pools, the sufficiency test, the season
   * filter, the user's outfit ids (a store call outside any `try`), and the
   * search.
   */
  function NormalDraft(env: Env, clothes: seq<Clothing>, outfits: seq<OutfitRecord>, month: MonthIndex, pr: Progress): Drafting
  {
    var fetched := FetchClothes(env, clothes, pr);
    var p := NormalPools(fetched.allClothes);
    if !Sufficient(p) then Drafting(Some(Declined(ADD_MORE_CLOTHES, None)), fetched)
    else
      var season := SeasonNorth(month);
      var q := SeasonPools(p, season);
      if env.fails(fetched.calls) then Drafting(None, fetched.(calls := fetched.calls + 1))
      else
        var ids := Ids(OutfitsOf(outfits, env.user));
        var scan := SearchOutfit(Context(ids, env.hash, env.source), q, fetched.draws);
        Drafting(Some(Drafted(scan.chosen, [NORMAL], [season], None)), Progress(fetched.allClothes, fetched.calls + 1, scan.draws))
  }

  /**
   * `NormalDraft` unfolded into its three cases once the clothes are
   * fetched. This is a proof step for `CreateNormalOutfit`, not a property
   * of normal selection; those are `NormalDraftOutcome` and
   * `NormalRunOutcome`.
   */
  lemma NormalDraftSteps(env: Env, clothes: seq<Clothing>, outfits: seq<OutfitRecord>, month: MonthIndex, pr: Progress)
    ensures var fetched := FetchClothes(env, clothes, pr);
      var n := NormalDraft(env, clothes, outfits, month, pr);
      var q := SeasonPools(NormalPools(fetched.allClothes), SeasonNorth(month));
      var scan := SearchOutfit(Context(Ids(OutfitsOf(outfits, env.user)), env.hash, env.source), q, fetched.draws);
      && (!Sufficient(NormalPools(fetched.allClothes)) ==> n == Drafting(Some(Declined(ADD_MORE_CLOTHES, None)), fetched))
      && (Sufficient(NormalPools(fetched.allClothes)) && env.fails(fetched.calls) ==> n == Drafting(None, fetched.(calls := fetched.calls + 1)))
      && (Sufficient(NormalPools(fetched.allClothes)) && !env.fails(fetched.calls) ==>
            n == Drafting(Some(Drafted(scan.chosen, [NORMAL], [SeasonNorth(month)], None)), Progress(fetched.allClothes, fetched.calls + 1, scan.draws)))
  {
  }

  /**
   * The random choice of the formal selection, draw by draw: the upper item
   * from the only non-empty upper pool, or a coin between a random shirt and
   * a random outerwear; then random trousers and random shoes.
   */
  function FormalPick(p: Pools, source: RandomSource, k: nat): (Triple, nat)
    requires Sufficient(p)
  {
    var (upper, k1) :=
      if |p.outerwear| == 0 then (p.shirt[RandomInt(source, k, |p.shirt|)], k + 1)
      else if |p.shirt| == 0 then (p.outerwear[RandomInt(source, k, |p.outerwear|)], k + 1)
      else if RandomInt(source, k, 2) != 0 then (p.shirt[RandomInt(source, k + 1, |p.shirt|)], k + 2)
      else (p.outerwear[RandomInt(source, k + 1, |p.outerwear|)], k + 2);
    var trousers := p.trousers[RandomInt(source, k1, |p.trousers|)];
    var shoes := p.shoes[RandomInt(source, k1 + 1, |p.shoes|)];
    (Triple(upper, trousers, shoes), k1 + 2)
  }

  /** `{ ...result, warning }`: the draft with its warning replaced. */
  function WithWarning(d: Option<Draft>, warning: string): Option<Draft>
  {
    match d
    case None => None
    case Some(Drafted(c, o, s, _)) => Some(Drafted(c, o, s, Some(warning)))
    case Some(Declined(m, _)) => Some(Declined(m, Some(warning)))
  }

  /**
   * `createFormalOutfit`: formal pools and their sufficiency test; too few
   * formal clothes falls back to the normal selection with a warning that
   * lists today's formal events.
   */
  function FormalDraft(env: Env, clothes: seq<Clothing>, outfits: seq<OutfitRecord>, month: MonthIndex, events: seq<string>, pr: Progress): Drafting
  {
    var fetched := FetchClothes(env, clothes, pr);
    var p := FormalPools(fetched.allClothes);
    if !Sufficient(p) then
      var normal := NormalDraft(env, clothes, outfits, month, fetched);
      Drafting(WithWarning(normal.draft, FormalWarning(events)), normal.progress)
    else
      var (t, k) := FormalPick(p, env.source, fetched.draws);
      Drafting(Some(Drafted(Some(t), [FORMAL], [ALL_SEASONS], None)), fetched.(draws := k))
  }

  /** The response of `saveOutfit`, the outfit store afterwards, and the store-call counter. */
  datatype Saving = Saving(response: Response, outfits: seq<OutfitRecord>, calls: nat)

  /**
   * `saveOutfit`: a declined draft fails; a draft without items crashes on
   * reading their ids; otherwise the hashed id is looked up (in the whole
   * store) and an existing record is returned, or a new record is saved.
   */
  function SaveResult(env: Env, d: Draft, outfits: seq<OutfitRecord>, calls: nat, now: Timestamp): Saving
  {
    match d
    case Declined(_, _) => Saving(Failure(GENERATE_FAILED, None), outfits, calls)
    case Drafted(None, _, _, _) => Saving(Crashed, outfits, calls)
    case Drafted(Some(t), occasions, seasons, warning) =>
      var id := env.hash(Key(t));
      if env.fails(calls) then Saving(Failure(SEARCH_FAILED, None), outfits, calls + 1)
      else
        var existing := WithId(outfits, id);
        if |existing| > 0 then
          var e := existing[0];
          Saving(Success(GENERATED, warning, OutfitView(e.id, e.clothes, e.created, occasions, seasons, e.opinion, env.user, t)), outfits, calls + 1)
        else
          var rec := OutfitRecord(id, ClothesIds(t), occasions, seasons, UNKNOWN_OPINION, env.user, now);
          if env.fails(calls + 1) || id in Ids(outfits) then Saving(Failure(SAVE_FAILED, None), outfits, calls + 2)
          else Saving(Success(GENERATED, warning, OutfitView(id, rec.clothes, now, occasions, seasons, UNKNOWN_OPINION, env.user, t)), outfits + [rec], calls + 2)
  }

  /** The state the set-up leaves, or the message of the exception that ended it. */
  datatype Setup =
    | SetupFailed(error: string, calls: nat)
    | Ready(allOutfits: seq<OutfitRecord>, todayFormalOutfits: seq<OutfitRecord>, todayFormalEvents: seq<string>, calls: nat)

  /** The user's outfits as `getAllOutfits` leaves them: the previous list when the store call throws. */
  function FetchOutfits(env: Env, outfits: seq<OutfitRecord>, previous: seq<OutfitRecord>, calls: nat): seq<OutfitRecord>
  {
    if env.fails(calls) then previous else OutfitsOf(outfits, env.user)
  }

  /** The set-up phase inside the `try`: `getAllOutfits`, `getTodayFormalOutfits`, `getTodayFormalEvents`. */
  function SetupResult(env: Env, outfits: seq<OutfitRecord>, allOutfits: seq<OutfitRecord>, events: seq<string>, calls: nat, today: string, calendar: CalendarReply): Setup
  {
    var all := FetchOutfits(env, outfits, allOutfits, calls);
    match TodayFormalOutfits(all, today)
    case Thrown(e) => SetupFailed(e, calls + 1)
    case Value(todays) =>
      match calendar
      case CalendarDown => Ready(all, todays, events, calls + 1)
      case Malformed(e) => SetupFailed(e, calls + 1)
      case Listed(summaries) => Ready(all, todays, events + FormalSummaries(summaries), calls + 1)
  }

  /** Formal selection runs only when no formal outfit was made today and some event today is formal. */
  predicate NeedsFormal(todayFormalOutfits: seq<OutfitRecord>, todayFormalEvents: seq<string>)
  {
    |todayFormalOutfits| == 0 && |todayFormalEvents| > 0
  }

  /** A whole run: the response, the outfit store afterwards and both counters. */
  datatype Run = Run(response: Response, outfits: seq<OutfitRecord>, calls: nat, draws: nat)

  /** `generateOutfit`, from the closure's initial lists and the counters. */
  function GenerateResult(
    env: Env, clothes: seq<Clothing>, outfits: seq<OutfitRecord>,
    allOutfits: seq<OutfitRecord>, events: seq<string>, allClothes: seq<Clothing>,
    calls: nat, draws: nat,
    today: string, month: MonthIndex, calendar: CalendarReply, now: Timestamp): Run
  {
    match SetupResult(env, outfits, allOutfits, events, calls, today, calendar)
    case SetupFailed(e, c) => Run(Failure(INIT_FAILED, Some(e)), outfits, c, draws)
    case Ready(_, todays, formalEvents, c) =>
      var pr := Progress(allClothes, c, draws);
      var drafting :=
        if NeedsFormal(todays, formalEvents) then FormalDraft(env, clothes, outfits, month, formalEvents, pr)
        else NormalDraft(env, clothes, outfits, month, pr);
      Finish(env, drafting, outfits, now)
  }

  /** The end of a run: an escaped exception crashes it, a draft is saved. */
  function Finish(env: Env, drafting: Drafting, outfits: seq<OutfitRecord>, now: Timestamp): Run
  {
    match drafting.draft
    case None => Run(Crashed, outfits, drafting.progress.calls, drafting.progress.draws)
    case Some(d) =>
      var saved := SaveResult(env, d, outfits, drafting.progress.calls, now);
      Run(saved.response, saved.outfits, saved.calls, drafting.progress.draws)
  }

  // ---------------------------------------------------------------------
  // Set-up and decision
  // ---------------------------------------------------------------------

  /**
   * The set-up fails exactly when an outfit read has an invalid date or the
   * calendar reply cannot be read; failures of the store and of the calendar
   * call themselves are caught and do not end the set-up.
   */
  lemma SetupFailsIff(env: Env, outfits: seq<OutfitRecord>, allOutfits: seq<OutfitRecord>, events: seq<string>, calls: nat, today: string, calendar: CalendarReply)
    ensures var all := FetchOutfits(env, outfits, allOutfits, calls);
      SetupResult(env, outfits, allOutfits, events, calls, today, calendar).SetupFailed? <==>
        (exists o :: o in all && o.created.InvalidDate?) || calendar.Malformed?
    ensures var all := FetchOutfits(env, outfits, allOutfits, calls);
      SetupResult(env, outfits, allOutfits, events, calls, today, calendar).SetupFailed? ==>
        SetupResult(env, outfits, allOutfits, events, calls, today, calendar).error ==
          if exists o :: o in all && o.created.InvalidDate? then INVALID_TIME_VALUE else calendar.error
  {
  }

  /**
   * When the set-up reads its data, it records exactly today's formal
   * outfits and formal events. Only the user's own outfits are read, so
   * other users' dates do not matter.
   */
  lemma SetupReadsTodaysFormalContext(env: Env, outfits: seq<OutfitRecord>, calls: nat, today: string, summaries: seq<string>)
    requires !env.fails(calls)
    requires forall o :: o in outfits && o.user == env.user ==> o.created.Instant?
    ensures SetupResult(env, outfits, [], [], calls, today, Listed(summaries)).Ready?
    ensures var s := SetupResult(env, outfits, [], [], calls, today, Listed(summaries));
      && (forall o :: o in s.todayFormalOutfits <==> o in outfits && o.user == env.user && IsTodayFormal(o, today))
      && (forall e :: e in s.todayFormalEvents <==> e in summaries && IsFormalSummary(e))
  {
    QueryMembers(outfits, [], env.user, 0);
    FormalSummariesMembers(summaries);
  }

  /** An invalid date on another user's outfit does not stop the set-up. */
  lemma SetupIgnoresOtherUsersDates(env: Env, calls: nat, today: string)
    requires !env.fails(calls) && env.user != "other"
    ensures SetupResult(env, [OutfitRecord(0, [], [], [], UNKNOWN_OPINION, "other", InvalidDate)], [], [], calls, today, Listed([])).Ready?
  {
    SetupReadsTodaysFormalContext(env, [OutfitRecord(0, [], [], [], UNKNOWN_OPINION, "other", InvalidDate)], calls, today, []);
  }

  /**
   * A set-up exception ends the run with "Failed to initialize", the
   * exception's message as warning, and nothing stored.
   */
  lemma InitFailureOutcome(
    env: Env, clothes: seq<Clothing>, outfits: seq<OutfitRecord>,
    allOutfits: seq<OutfitRecord>, events: seq<string>, allClothes: seq<Clothing>,
    calls: nat, draws: nat, today: string, month: MonthIndex, calendar: CalendarReply, now: Timestamp)
    requires SetupResult(env, outfits, allOutfits, events, calls, today, calendar).SetupFailed?
    ensures var run := GenerateResult(env, clothes, outfits, allOutfits, events, allClothes, calls, draws, today, month, calendar, now);
      && run.response == Failure(INIT_FAILED, Some(SetupResult(env, outfits, allOutfits, events, calls, today, calendar).error))
      && run.outfits == outfits
  {
  }

  /** The formal pick takes each item from its pool; the upper item from outerwear or shirt. */
  lemma FormalPickFromPools(p: Pools, source: RandomSource, k: nat)
    requires Sufficient(p)
    ensures var (t, k') := FormalPick(p, source, k);
      && (t.upper in p.outerwear || t.upper in p.shirt)
      && t.trousers in p.trousers
      && t.shoes in p.shoes
      && k + 3 <= k' <= k + 4
  {
  }

  lemma ModOfSmaller(r: nat, n: nat)
    requires r < n
    ensures r % n == r
  {
  }

  /** Every triple of the formal pools is the formal pick of some random source. */
  lemma FormalPickCanChooseAny(p: Pools, k: nat, u: Clothing, t: Clothing, s: Clothing)
    requires Sufficient(p)
    requires u in p.outerwear || u in p.shirt
    requires t in p.trousers && s in p.shoes
    ensures exists source: RandomSource :: FormalPick(p, source, k).0 == Triple(u, t, s)
  {
    var ti :| 0 <= ti < |p.trousers| && p.trousers[ti] == t;
    var si :| 0 <= si < |p.shoes| && p.shoes[si] == s;
    var coin, ui;
    if u in p.shirt {
      coin := 1;
      ui :| 0 <= ui < |p.shirt| && p.shirt[ui] == u;
    } else {
      coin := 0;
      ui :| 0 <= ui < |p.outerwear| && p.outerwear[ui] == u;
    }
    var both := |p.outerwear| > 0 && |p.shirt| > 0;
    var k1 := if both then k + 2 else k + 1;
    var source: RandomSource := (i: nat) =>
      if both && i == k then coin
      else if i == k1 - 1 then ui
      else if i == k1 then ti
      else si;
    ModOfSmaller(ti, |p.trousers|);
    ModOfSmaller(si, |p.shoes|);
    if both {
      ModOfSmaller(coin, 2);
      if coin == 1 {
        ModOfSmaller(ui, |p.shirt|);
      } else {
        ModOfSmaller(ui, |p.outerwear|);
      }
    } else if |p.outerwear| == 0 {
      ModOfSmaller(ui, |p.shirt|);
    } else {
      ModOfSmaller(ui, |p.outerwear|);
    }
    assert FormalPick(p, source, k).0 == Triple(u, t, s);
  }

  /**
   * The formal selection. With a formal upper item, formal trousers and
   * formal shoes it chooses one of each from the user's formal clothes, with
   * occasions ["formal"] and seasons ["All"]; otherwise it is the normal
   * selection with the warning that lists today's formal events.
   */
  lemma FormalDraftOutcome(env: Env, clothes: seq<Clothing>, outfits: seq<OutfitRecord>, month: MonthIndex, events: seq<string>, pr: Progress)
    ensures var fetched := FetchClothes(env, clothes, pr);
      var f := FormalDraft(env, clothes, outfits, month, events, pr);
      if Sufficient(FormalPools(fetched.allClothes)) then
        && f.draft.Some? && f.draft.value.Drafted? && f.draft.value.chosen.Some?
        && f.draft.value.occasions == [FORMAL] && f.draft.value.seasons == [ALL_SEASONS]
        && f.draft.value.warning.None?
        && f.progress.calls == fetched.calls
        && (var t := f.draft.value.chosen.value;
            && t.upper in fetched.allClothes && IsFormalItem(t.upper) && (t.upper.category == OUTERWEAR || t.upper.category == SHIRT)
            && t.trousers in fetched.allClothes && IsFormalItem(t.trousers) && t.trousers.category == TROUSERS
            && t.shoes in fetched.allClothes && IsFormalItem(t.shoes) && t.shoes.category == SHOES)
      else
        var normal := NormalDraft(env, clothes, outfits, month, fetched);
        && f.progress == normal.progress
        && f.draft.None? == normal.draft.None?
        && (f.draft.Some? ==> f.draft.value.warning == Some(FormalWarning(events)))
        && (normal.draft.Some? && normal.draft.value.Declined? ==> f.draft == Some(Declined(normal.draft.value.message, Some(FormalWarning(events)))))
        && (normal.draft.Some? && normal.draft.value.Drafted? ==>
              f.draft == Some(Drafted(normal.draft.value.chosen, normal.draft.value.occasions, normal.draft.value.seasons, Some(FormalWarning(events)))))
  {
    var fetched := FetchClothes(env, clothes, pr);
    var p := FormalPools(fetched.allClothes);
    if Sufficient(p) {
      FormalPickFromPools(p, env.source, fetched.draws);
      FormalPoolsMembers(fetched.allClothes);
    }
  }

  // ---------------------------------------------------------------------
  // Normal selection
  // ---------------------------------------------------------------------

  /**
   * The normal selection. It declines with "Add more clothes to get
   * outfit!" exactly when the user's non-formal clothes lack an upper item,
   * trousers or shoes; this test comes before the season filter.
   * Otherwise, unless the store call for the outfit ids throws, it drafts an
   * outfit with occasions ["normal"] and the month's season; any triple it
   * chooses is made of non-formal items of their categories, worn in that
   * season, and its hash is not one of the user's outfit ids.
   */
  lemma NormalDraftOutcome(env: Env, clothes: seq<Clothing>, outfits: seq<OutfitRecord>, month: MonthIndex, pr: Progress)
    ensures var fetched := FetchClothes(env, clothes, pr);
      var n := NormalDraft(env, clothes, outfits, month, pr);
      && (n.draft == Some(Declined(ADD_MORE_CLOTHES, None)) <==> !Sufficient(NormalPools(fetched.allClothes)))
      && (n.draft.None? <==> Sufficient(NormalPools(fetched.allClothes)) && env.fails(fetched.calls))
      && (n.draft.Some? && n.draft.value.Drafted? ==>
           && n.draft.value.occasions == [NORMAL]
           && n.draft.value.seasons == [SeasonNorth(month)]
           && n.draft.value.warning.None?
           && (n.draft.value.chosen.Some? ==>
                var t := n.draft.value.chosen.value;
                var season := SeasonNorth(month);
                && env.hash(Key(t)) !in Ids(OutfitsOf(outfits, env.user))
                && t.upper in fetched.allClothes && IsNormalItem(t.upper) && InSeason(t.upper, season)
                && (t.upper.category == OUTERWEAR || t.upper.category == SHIRT)
                && t.trousers in fetched.allClothes && IsNormalItem(t.trousers) && InSeason(t.trousers, season)
                && t.trousers.category == TROUSERS
                && t.shoes in fetched.allClothes && IsNormalItem(t.shoes) && InSeason(t.shoes, season)
                && t.shoes.category == SHOES))
  {
    var fetched := FetchClothes(env, clothes, pr);
    var p := NormalPools(fetched.allClothes);
    NormalPoolsMembers(fetched.allClothes);
    if Sufficient(p) && !env.fails(fetched.calls) {
      var q := SeasonPools(p, SeasonNorth(month));
      SeasonPoolsMembers(p, SeasonNorth(month));
      var ids := Ids(OutfitsOf(outfits, env.user));
      SearchSound(Context(ids, env.hash, env.source), q, fetched.draws);
    }
  }

  /**
   * The unhandled case: with non-formal shirts but no outerwear worn this
   * season (or the reverse), the search chooses nothing, selection still
   * reports success, and saving crashes on the missing items.
   */
  lemma NormalWithoutSeasonOuterwearCrashes(env: Env, clothes: seq<Clothing>, outfits: seq<OutfitRecord>, month: MonthIndex, pr: Progress, now: Timestamp)
    requires var fetched := FetchClothes(env, clothes, pr);
      && Sufficient(NormalPools(fetched.allClothes))
      && !env.fails(fetched.calls)
      && (SeasonPools(NormalPools(fetched.allClothes), SeasonNorth(month)).outerwear == [] ||
          SeasonPools(NormalPools(fetched.allClothes), SeasonNorth(month)).shirt == [])
    ensures var n := NormalDraft(env, clothes, outfits, month, pr);
      && n.draft.Some? && n.draft.value.Drafted? && n.draft.value.chosen.None?
      && SaveResult(env, n.draft.value, outfits, n.progress.calls, now).response == Crashed
  {
    var fetched := FetchClothes(env, clothes, pr);
    var q := SeasonPools(NormalPools(fetched.allClothes), SeasonNorth(month));
    var ids := Ids(OutfitsOf(outfits, env.user));
    SearchNeedsOuterwearAndShirt(Context(ids, env.hash, env.source), q, fetched.draws);
  }

  // ---------------------------------------------------------------------
  // Saving
  // ---------------------------------------------------------------------

  /** A declined draft gives "Failed to generate an outfit", dropping its own message and warning, and stores nothing. */
  lemma SaveDeclined(env: Env, message: string, warning: Option<string>, outfits: seq<OutfitRecord>, calls: nat, now: Timestamp)
    ensures SaveResult(env, Declined(message, warning), outfits, calls, now) == Saving(Failure(GENERATE_FAILED, None), outfits, calls)
  {
  }

  /**
   * An outfit whose id is already stored is returned, not stored again: the
   * stored id, items, creation date and opinion, with the fresh occasions,
   * seasons and chosen items, and the requesting user.
   */
  lemma SaveExisting(env: Env, t: Triple, occasions: seq<string>, seasons: seq<string>, warning: Option<string>, outfits: seq<OutfitRecord>, calls: nat, now: Timestamp)
    requires !env.fails(calls)
    requires env.hash(Key(t)) in Ids(outfits)
    ensures var s := SaveResult(env, Drafted(Some(t), occasions, seasons, warning), outfits, calls, now);
      && s.outfits == outfits
      && s.response.Success? && s.response.message == GENERATED && s.response.warning == warning
      && var v := s.response.outfit;
         && v.id == env.hash(Key(t))
         && (exists e :: e in outfits && e.id == v.id && v.clothes == e.clothes && v.created == e.created && v.opinion == e.opinion)
         && v.occasions == occasions && v.seasons == seasons && v.user == env.user && v.chosen == t
  {
    WithIdFound(outfits, env.hash(Key(t)));
    var e := WithId(outfits, env.hash(Key(t)))[0];
    assert e in WithId(outfits, env.hash(Key(t)));
  }

  /**
   * A new outfit is stored as exactly one new record under the hashed id,
   * listing the upper, trousers and shoes ids, with opinion "unknown", and
   * the response shows that record.
   */
  lemma SaveNew(env: Env, t: Triple, occasions: seq<string>, seasons: seq<string>, warning: Option<string>, outfits: seq<OutfitRecord>, calls: nat, now: Timestamp)
    requires !env.fails(calls) && !env.fails(calls + 1)
    requires env.hash(Key(t)) !in Ids(outfits)
    ensures var s := SaveResult(env, Drafted(Some(t), occasions, seasons, warning), outfits, calls, now);
      var rec := OutfitRecord(env.hash(Key(t)), [t.upper.id, t.trousers.id, t.shoes.id], occasions, seasons, UNKNOWN_OPINION, env.user, now);
      && s.outfits == outfits + [rec]
      && s.response == Success(GENERATED, warning, OutfitView(rec.id, rec.clothes, now, occasions, seasons, UNKNOWN_OPINION, env.user, t))
  {
    WithIdFound(outfits, env.hash(Key(t)));
  }

  /** A failing lookup gives "Failed to search outfit"; a failing save "Failed to save outfit"; neither stores anything. */
  lemma SaveStoreFailures(env: Env, t: Triple, occasions: seq<string>, seasons: seq<string>, warning: Option<string>, outfits: seq<OutfitRecord>, calls: nat, now: Timestamp)
    ensures var s := SaveResult(env, Drafted(Some(t), occasions, seasons, warning), outfits, calls, now);
      && (env.fails(calls) ==> s == Saving(Failure(SEARCH_FAILED, None), outfits, calls + 1))
      && (!env.fails(calls) && env.hash(Key(t)) !in Ids(outfits) && env.fails(calls + 1) ==>
            s == Saving(Failure(SAVE_FAILED, None), outfits, calls + 2))
  {
    WithIdFound(outfits, env.hash(Key(t)));
  }

  /** Saving adds at most one record, under a new id, and changes no stored record: ids stay unique. */
  lemma SaveKeepsStoreUnique(env: Env, d: Draft, outfits: seq<OutfitRecord>, calls: nat, now: Timestamp)
    requires UniqueIds(outfits)
    ensures var s := SaveResult(env, d, outfits, calls, now);
      && UniqueIds(s.outfits)
      && (s.outfits == outfits || exists rec: OutfitRecord :: rec.id !in Ids(outfits) && s.outfits == outfits + [rec])
      && (s.outfits != outfits ==> s.response.Success? && |s.outfits| == |outfits| + 1 && s.outfits[|outfits|].id == s.response.outfit.id)
  {
    var s := SaveResult(env, d, outfits, calls, now);
    if s.outfits != outfits {
      var t := d.chosen.value;
      var rec := OutfitRecord(env.hash(Key(t)), ClothesIds(t), d.occasions, d.seasons, UNKNOWN_OPINION, env.user, now);
      AppendFreshKeepsUnique(outfits, rec);
    }
  }

  /**
   * A whole run adds at most one record, under a new id, never changes a
   * stored record, and keeps ids unique; a run that regenerates a stored
   * outfit adds nothing.
   */
  lemma GenerateKeepsStoreUnique(
    env: Env, clothes: seq<Clothing>, outfits: seq<OutfitRecord>,
    allOutfits: seq<OutfitRecord>, events: seq<string>, allClothes: seq<Clothing>,
    calls: nat, draws: nat, today: string, month: MonthIndex, calendar: CalendarReply, now: Timestamp)
    requires UniqueIds(outfits)
    ensures var run := GenerateResult(env, clothes, outfits, allOutfits, events, allClothes, calls, draws, today, month, calendar, now);
      && UniqueIds(run.outfits)
      && (run.outfits == outfits || exists rec: OutfitRecord :: rec.id !in Ids(outfits) && run.outfits == outfits + [rec])
      && (run.response.Success? && run.response.outfit.id in Ids(outfits) ==> run.outfits == outfits)
  {
    match SetupResult(env, outfits, allOutfits, events, calls, today, calendar)
    case SetupFailed(_, _) =>
    case Ready(_, todays, formalEvents, c) =>
      var pr := Progress(allClothes, c, draws);
      var drafting :=
        if NeedsFormal(todays, formalEvents) then FormalDraft(env, clothes, outfits, month, formalEvents, pr)
        else NormalDraft(env, clothes, outfits, month, pr);
      FinishKeepsStoreUnique(env, drafting, outfits, now);
  }

  lemma FinishKeepsStoreUnique(env: Env, drafting: Drafting, outfits: seq<OutfitRecord>, now: Timestamp)
    requires UniqueIds(outfits)
    ensures var run := Finish(env, drafting, outfits, now);
      && UniqueIds(run.outfits)
      && (run.outfits == outfits || exists rec: OutfitRecord :: rec.id !in Ids(outfits) && run.outfits == outfits + [rec])
      && (run.response.Success? && run.response.outfit.id in Ids(outfits) ==> run.outfits == outfits)
  {
    var run := Finish(env, drafting, outfits, now);
    if drafting.draft.Some? {
      SaveKeepsStoreUnique(env, drafting.draft.value, outfits, drafting.progress.calls, now);
      if run.outfits != outfits {
        var rec: OutfitRecord :| rec.id !in Ids(outfits) && run.outfits == outfits + [rec];
        assert run.outfits[|outfits|] == rec;
      }
    }
  }

  // ---------------------------------------------------------------------
  // Whose clothes are chosen
  // ---------------------------------------------------------------------

  /** Every item of the list belongs to the user. */
  predicate AllOwnedBy(user: string, cs: seq<Clothing>)
  {
    forall c :: c in cs ==> c.user == user
  }

  /** The three items of the triple belong to the user. */
  predicate TripleOwnedBy(user: string, t: Triple)
  {
    t.upper.user == user && t.trousers.user == user && t.shoes.user == user
  }

  /**
   * Normal selection chooses only the user's items, provided the list kept
   * from an earlier fetch was the user's: a successful fetch replaces it by
   * the user's items, a failed one keeps it.
   */
  lemma NormalDraftOwnership(env: Env, clothes: seq<Clothing>, outfits: seq<OutfitRecord>, month: MonthIndex, pr: Progress)
    requires AllOwnedBy(env.user, pr.allClothes)
    ensures var n := NormalDraft(env, clothes, outfits, month, pr);
      && AllOwnedBy(env.user, n.progress.allClothes)
      && (n.draft.Some? && n.draft.value.Drafted? && n.draft.value.chosen.Some? ==> TripleOwnedBy(env.user, n.draft.value.chosen.value))
  {
    NormalDraftSteps(env, clothes, outfits, month, pr);
    NormalDraftOutcome(env, clothes, outfits, month, pr);
    QueryMembers(outfits, clothes, env.user, 0);
  }

  /** Formal selection, and its fallback to normal selection, choose only the user's items. */
  lemma FormalDraftOwnership(env: Env, clothes: seq<Clothing>, outfits: seq<OutfitRecord>, month: MonthIndex, events: seq<string>, pr: Progress)
    requires AllOwnedBy(env.user, pr.allClothes)
    ensures var f := FormalDraft(env, clothes, outfits, month, events, pr);
      && AllOwnedBy(env.user, f.progress.allClothes)
      && (f.draft.Some? && f.draft.value.Drafted? && f.draft.value.chosen.Some? ==> TripleOwnedBy(env.user, f.draft.value.chosen.value))
  {
    var fetched := FetchClothes(env, clothes, pr);
    QueryMembers(outfits, clothes, env.user, 0);
    assert AllOwnedBy(env.user, fetched.allClothes);
    FormalDraftOutcome(env, clothes, outfits, month, events, pr);
    if !Sufficient(FormalPools(fetched.allClothes)) {
      NormalDraftOwnership(env, clothes, outfits, month, fetched);
    }
  }

  // ---------------------------------------------------------------------
  // Whole runs
  // ---------------------------------------------------------------------

  /** A successful save answers with the draft's items, occasions, seasons and warning, for the requesting user. */
  lemma SaveEchoesDraft(env: Env, d: Draft, outfits: seq<OutfitRecord>, calls: nat, now: Timestamp)
    ensures var r := SaveResult(env, d, outfits, calls, now).response;
      r.Success? ==>
        && d.Drafted? && d.chosen.Some?
        && r.message == GENERATED && r.warning == d.warning
        && r.outfit.occasions == d.occasions && r.outfit.seasons == d.seasons
        && r.outfit.chosen == d.chosen.value && r.outfit.user == env.user
  {
  }

  /**
   * When the decision rule picks normal selection: too few non-formal
   * clothes answers "Failed to generate an outfit" (the selection's own
   * message is dropped) and stores nothing; a success is a normal outfit of
   * the current season, without warning, whose id was not yet the user's.
   */
  lemma NormalRunOutcome(
    env: Env, clothes: seq<Clothing>, outfits: seq<OutfitRecord>,
    allOutfits: seq<OutfitRecord>, events: seq<string>, allClothes: seq<Clothing>,
    calls: nat, draws: nat, today: string, month: MonthIndex, calendar: CalendarReply, now: Timestamp)
    requires var s := SetupResult(env, outfits, allOutfits, events, calls, today, calendar);
      s.Ready? && !NeedsFormal(s.todayFormalOutfits, s.todayFormalEvents)
    ensures var s := SetupResult(env, outfits, allOutfits, events, calls, today, calendar);
      var fetched := FetchClothes(env, clothes, Progress(allClothes, s.calls, draws));
      var run := GenerateResult(env, clothes, outfits, allOutfits, events, allClothes, calls, draws, today, month, calendar, now);
      && (!Sufficient(NormalPools(fetched.allClothes)) ==> run.response == Failure(GENERATE_FAILED, None) && run.outfits == outfits)
      && (run.response.Success? ==>
            var v := run.response.outfit;
            var season := SeasonNorth(month);
            && v.occasions == [NORMAL] && v.seasons == [season] && run.response.warning.None?
            && env.hash(Key(v.chosen)) !in Ids(OutfitsOf(outfits, env.user))
            && IsNormalItem(v.chosen.upper) && InSeason(v.chosen.upper, season)
            && IsNormalItem(v.chosen.trousers) && InSeason(v.chosen.trousers, season)
            && IsNormalItem(v.chosen.shoes) && InSeason(v.chosen.shoes, season))
  {
    var s := SetupResult(env, outfits, allOutfits, events, calls, today, calendar);
    var pr := Progress(allClothes, s.calls, draws);
    var n := NormalDraft(env, clothes, outfits, month, pr);
    assert GenerateResult(env, clothes, outfits, allOutfits, events, allClothes, calls, draws, today, month, calendar, now) == Finish(env, n, outfits, now);
    NormalDraftOutcome(env, clothes, outfits, month, pr);
    if n.draft.Some? {
      SaveEchoesDraft(env, n.draft.value, outfits, n.progress.calls, now);
    }
  }

  /**
   * When the decision rule picks formal selection and there are enough
   * formal clothes, a run whose two store calls succeed answers with a
   * formal outfit for all seasons, without warning, under the triple's hash.
   */
  lemma FormalRunOutcome(
    env: Env, clothes: seq<Clothing>, outfits: seq<OutfitRecord>,
    allOutfits: seq<OutfitRecord>, events: seq<string>, allClothes: seq<Clothing>,
    calls: nat, draws: nat, today: string, month: MonthIndex, calendar: CalendarReply, now: Timestamp)
    requires var s := SetupResult(env, outfits, allOutfits, events, calls, today, calendar);
      var fetched := FetchClothes(env, clothes, Progress(allClothes, s.calls, draws));
      && s.Ready? && NeedsFormal(s.todayFormalOutfits, s.todayFormalEvents)
      && Sufficient(FormalPools(fetched.allClothes))
      && !env.fails(fetched.calls) && !env.fails(fetched.calls + 1)
    ensures var run := GenerateResult(env, clothes, outfits, allOutfits, events, allClothes, calls, draws, today, month, calendar, now);
      && run.response.Success? && run.response.message == GENERATED && run.response.warning.None?
      && var v := run.response.outfit;
         && v.occasions == [FORMAL] && v.seasons == [ALL_SEASONS]
         && v.id == env.hash(Key(v.chosen))
         && IsFormalItem(v.chosen.upper) && (v.chosen.upper.category == OUTERWEAR || v.chosen.upper.category == SHIRT)
         && IsFormalItem(v.chosen.trousers) && v.chosen.trousers.category == TROUSERS
         && IsFormalItem(v.chosen.shoes) && v.chosen.shoes.category == SHOES
  {
    var s := SetupResult(env, outfits, allOutfits, events, calls, today, calendar);
    var pr := Progress(allClothes, s.calls, draws);
    var f := FormalDraft(env, clothes, outfits, month, s.todayFormalEvents, pr);
    assert GenerateResult(env, clothes, outfits, allOutfits, events, allClothes, calls, draws, today, month, calendar, now) == Finish(env, f, outfits, now);
    FormalDraftOutcome(env, clothes, outfits, month, s.todayFormalEvents, pr);
    var t := f.draft.value.chosen.value;
    assert f.draft.value == Drafted(Some(t), [FORMAL], [ALL_SEASONS], None);
    if env.hash(Key(t)) in Ids(outfits) {
      SaveExisting(env, t, [FORMAL], [ALL_SEASONS], None, outfits, f.progress.calls, now);
    } else {
      SaveNew(env, t, [FORMAL], [ALL_SEASONS], None, outfits, f.progress.calls, now);
    }
    SaveEchoesDraft(env, f.draft.value, outfits, f.progress.calls, now);
  }

  /**
   * When the decision rule picks formal selection but the formal clothes do
   * not suffice, the normal selection runs on a second fetch: a success is a
   * normal outfit carrying the formal-events warning, and too few normal
   * clothes answers "Failed to generate an outfit", the warning dropped.
   */
  lemma FormalFallbackRunOutcome(
    env: Env, clothes: seq<Clothing>, outfits: seq<OutfitRecord>,
    allOutfits: seq<OutfitRecord>, events: seq<string>, allClothes: seq<Clothing>,
    calls: nat, draws: nat, today: string, month: MonthIndex, calendar: CalendarReply, now: Timestamp)
    requires var s := SetupResult(env, outfits, allOutfits, events, calls, today, calendar);
      var fetched := FetchClothes(env, clothes, Progress(allClothes, s.calls, draws));
      && s.Ready? && NeedsFormal(s.todayFormalOutfits, s.todayFormalEvents)
      && !Sufficient(FormalPools(fetched.allClothes))
    ensures var s := SetupResult(env, outfits, allOutfits, events, calls, today, calendar);
      var fetched := FetchClothes(env, clothes, Progress(allClothes, s.calls, draws));
      var refetched := FetchClothes(env, clothes, fetched);
      var run := GenerateResult(env, clothes, outfits, allOutfits, events, allClothes, calls, draws, today, month, calendar, now);
      && (!Sufficient(NormalPools(refetched.allClothes)) ==> run.response == Failure(GENERATE_FAILED, None) && run.outfits == outfits)
      && (run.response.Success? ==>
            && run.response.warning == Some(FormalWarning(s.todayFormalEvents))
            && run.response.outfit.occasions == [NORMAL]
            && run.response.outfit.seasons == [SeasonNorth(month)])
  {
    var s := SetupResult(env, outfits, allOutfits, events, calls, today, calendar);
    var pr := Progress(allClothes, s.calls, draws);
    var fetched := FetchClothes(env, clothes, pr);
    var f := FormalDraft(env, clothes, outfits, month, s.todayFormalEvents, pr);
    assert GenerateResult(env, clothes, outfits, allOutfits, events, allClothes, calls, draws, today, month, calendar, now) == Finish(env, f, outfits, now);
    FormalDraftOutcome(env, clothes, outfits, month, s.todayFormalEvents, pr);
    NormalDraftOutcome(env, clothes, outfits, month, fetched);
    if f.draft.Some? {
      SaveEchoesDraft(env, f.draft.value, outfits, f.progress.calls, now);
    }
  }

  /** A formal outfit is answered only when the set-up saw no formal outfit today and some formal event. */
  lemma FormalOutfitOnlyWhenNeeded(
    env: Env, clothes: seq<Clothing>, outfits: seq<OutfitRecord>,
    allOutfits: seq<OutfitRecord>, events: seq<string>, allClothes: seq<Clothing>,
    calls: nat, draws: nat, today: string, month: MonthIndex, calendar: CalendarReply, now: Timestamp)
    ensures var run := GenerateResult(env, clothes, outfits, allOutfits, events, allClothes, calls, draws, today, month, calendar, now);
      var s := SetupResult(env, outfits, allOutfits, events, calls, today, calendar);
      run.response.Success? && run.response.outfit.occasions == [FORMAL] ==>
        s.Ready? && |s.todayFormalOutfits| == 0 && |s.todayFormalEvents| > 0
  {
    var s := SetupResult(env, outfits, allOutfits, events, calls, today, calendar);
    if s.Ready? && !NeedsFormal(s.todayFormalOutfits, s.todayFormalEvents) {
      NormalRunOutcome(env, clothes, outfits, allOutfits, events, allClothes, calls, draws, today, month, calendar, now);
      assert [NORMAL] != [FORMAL] by {
        assert [NORMAL][0] != [FORMAL][0];
      }
    }
  }

  /**
   * A successful run answers for the requesting user with that user's
   * items, whenever the closure's clothes list starts as the user's (it
   * starts empty).
   */
  lemma RunChoosesUsersClothes(
    env: Env, clothes: seq<Clothing>, outfits: seq<OutfitRecord>,
    allOutfits: seq<OutfitRecord>, events: seq<string>, allClothes: seq<Clothing>,
    calls: nat, draws: nat, today: string, month: MonthIndex, calendar: CalendarReply, now: Timestamp)
    requires AllOwnedBy(env.user, allClothes)
    ensures var run := GenerateResult(env, clothes, outfits, allOutfits, events, allClothes, calls, draws, today, month, calendar, now);
      run.response.Success? ==> run.response.outfit.user == env.user && TripleOwnedBy(env.user, run.response.outfit.chosen)
  {
    var s := SetupResult(env, outfits, allOutfits, events, calls, today, calendar);
    if s.Ready? {
      var pr := Progress(allClothes, s.calls, draws);
      var drafting :=
        if NeedsFormal(s.todayFormalOutfits, s.todayFormalEvents) then FormalDraft(env, clothes, outfits, month, s.todayFormalEvents, pr)
        else NormalDraft(env, clothes, outfits, month, pr);
      assert GenerateResult(env, clothes, outfits, allOutfits, events, allClothes, calls, draws, today, month, calendar, now) == Finish(env, drafting, outfits, now);
      if NeedsFormal(s.todayFormalOutfits, s.todayFormalEvents) {
        FormalDraftOwnership(env, clothes, outfits, month, s.todayFormalEvents, pr);
      } else {
        NormalDraftOwnership(env, clothes, outfits, month, pr);
      }
      if drafting.draft.Some? {
        SaveEchoesDraft(env, drafting.draft.value, outfits, drafting.progress.calls, now);
      }
    }
  }
}
