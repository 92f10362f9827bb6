# Outfit generation, modelled in Dafny

This project models the outfit generator of a wardrobe back end:
`generateOutfit` in `backend/service/outfits-service.js`, together with its
helpers and the two season helpers beside it.

A run has three phases.

1. **Set-up.** It reads the user's outfits. It keeps the outfits created
   today whose occasions include `formal`. It reads today's calendar and
   keeps each event summary that has one of five keywords as a whole word,
   compared after ASCII lower-casing.
2. **Selection.** If there is no formal outfit today and there is a formal
   event, formal selection runs:
   - it picks a random formal upper item (outerwear or shirt), formal
     trousers and formal shoes;
   - with too few formal clothes it falls back to normal selection and adds
     a warning that lists the events.

   Otherwise normal selection runs:
   - it checks it has enough non-formal clothes;
   - it keeps the items worn in the current northern-hemisphere season;
   - four nested loops look for a triple whose hash is not yet an outfit id.
3. **Saving.** The triple's id is looked up. An existing record is returned;
   otherwise exactly one new record is stored.

Failures of the three fetch helpers are caught and logged, and the run
goes on. `getAllClothes` and `getAllOutfits` keep the previous list; a
failed calendar call adds no events. An exception in the set-up answers
"Failed to initialize". In `saveOutfit`, a failing lookup answers "Failed
to search outfit" and a failing save "Failed to save outfit". Two
exceptions escape uncaught: a failing id query in normal selection and a
missing triple when saving. `saveOutfit` replaces a declined selection's message by
"Failed to generate an outfit".

The model has two layers.

- **Specification functions** (modules `Wardrobe`, `Events`, `Seasons`,
  `Search`, `Generation`). They state each phase on values. The store calls
  and the random draws are threaded through as counters.
- **Class `OutfitsService.OutfitGenerator`.** It keeps the closure's state:
  the outfit list, today's formal outfits, today's formal events and the
  clothes list. It mutates that state with the same helpers and the same
  loops as the source. Each method is proved equal to its specification
  function. The store is the class `Store.Database`, whose methods change
  its call counter and its outfit list.

The collaborators defined in `../utils/hash`, `./calendar-service` and the
Mongo models become parameters:

- `hashCode` is a parameter `hash: string -> int`.
- `randomInt(n)` is `source(k) % n` for the k-th draw of a random source.
- Whether the k-th store call throws is a predicate `fails(k)`.
- The calendar reply is a parameter: the call threw, a list of summaries,
  or a reply whose reading throws.
- Today's date string, the month index and the creation time of a new
  record are inputs.

Every behaviour of the collaborators is some choice of these parameters.
So a lemma over all of them covers every run.

## Model

| member | source | states |
|---|---|---|
| Builtins.Filter | backend/service/outfits-service.js:219-224 | `Array.prototype.filter` by recursion: order kept, never longer than its input; its membership is `FilterMembers` |
| Builtins.FilterMembers | backend/service/outfits-service.js:219-224 | `filter` keeps exactly the elements that pass its test |
| Builtins.FilterSnoc | backend/service/outfits-service.js:91-99 | handling one more event appends it exactly when it passes, so pushes keep event order |
| Builtins.LowerConcat | backend/service/outfits-service.js:92 | lower-casing distributes over concatenation |
| Builtins.LowerIdempotent | backend/service/outfits-service.js:92 | lower-casing twice is lower-casing once; no upper-case ASCII letter remains |
| Builtins.Split | backend/service/outfits-service.js:92 | `split(' ')` always yields at least one piece, even for the empty string |
| Builtins.SplitPiecesHaveNoSeparator | backend/service/outfits-service.js:92 | no piece of a split contains the separator |
| Builtins.JoinSplit | backend/service/outfits-service.js:92 | joining the pieces with the separator gives back the string |
| Builtins.SplitWithoutSeparator | backend/service/outfits-service.js:92 | a string without the separator splits into itself alone |
| Builtins.SplitPieceThenSeparator | backend/service/outfits-service.js:92 | a separator-free piece followed by the separator splits off as the first piece |
| Builtins.SplitJoin | backend/service/outfits-service.js:92 | splitting separator-free pieces joined by the separator gives back the pieces |
| Builtins.Prefix | backend/service/outfits-service.js:71 | `substr(0, n)` is a prefix of length `min(n, length)` |
| Wardrobe.Key | backend/service/outfits-service.js:139 | the text an outfit id is hashed from: the upper, trousers and shoes ids concatenated; a definition, used under the hash by `Search.Novel` and `Generation.SaveNew` |
| Wardrobe.IsFormalItem | backend/service/outfits-service.js:219 | `occasions.includes('formal')`; a definition, whose meaning in the pools is proved by `FormalPoolsMembers` |
| Wardrobe.IsNormalItem | backend/service/outfits-service.js:292 | the negated test; a definition, whose meaning in the pools is proved by `NormalPoolsMembers` |
| Wardrobe.CategoryIs | backend/service/outfits-service.js:221-224 | the test `c.category === category`; a definition, proved by `CategoryPoolsMembers` |
| Wardrobe.OfCategory | backend/service/outfits-service.js:221-224 | one category's filter; a definition, proved by `CategoryPoolsMembers` |
| Wardrobe.CategoryPools | backend/service/outfits-service.js:221-224 | the four category filters; each pool's members: `CategoryPoolsMembers` |
| Wardrobe.FormalPools | backend/service/outfits-service.js:219-224 | the formal pools; each pool's members: `FormalPoolsMembers` |
| Wardrobe.NormalPools | backend/service/outfits-service.js:292-297 | the normal pools; each pool's members: `NormalPoolsMembers` |
| Wardrobe.Sufficient | backend/service/outfits-service.js:233-237 | the negation of the "too few clothes" test; its meaning: `FormalSufficientIff` and `NormalSufficientIff` |
| Wardrobe.InSeason | backend/service/outfits-service.js:326-337 | the season test `seasons.includes(season)` or `seasons.includes('All')`; a definition, proved by `SeasonPoolsMembers` |
| Wardrobe.WornIn | backend/service/outfits-service.js:326-337 | the season test as a function value; a definition, proved by `SeasonPoolsMembers` |
| Wardrobe.SeasonPools | backend/service/outfits-service.js:326-337 | the four season filters; each pool's members: `SeasonPoolsMembers` |
| Wardrobe.CategoryPoolsMembers | backend/service/outfits-service.js:221-224 | each pool holds exactly the items whose category equals its name (exact, case-sensitive) |
| Wardrobe.FormalPoolsMembers | backend/service/outfits-service.js:219-224 | each formal pool holds exactly the items with occasion `formal` and that category |
| Wardrobe.NormalPoolsMembers | backend/service/outfits-service.js:292-297 | each normal pool holds exactly the items without occasion `formal` and with that category |
| Wardrobe.FormalSufficientIff | backend/service/outfits-service.js:233-237 | formal selection has enough clothes iff there is formal outerwear or a formal shirt, formal trousers and formal shoes |
| Wardrobe.NormalSufficientIff | backend/service/outfits-service.js:304-308 | normal selection has enough clothes iff the same holds for the non-formal items |
| Wardrobe.SeasonPoolsMembers | backend/service/outfits-service.js:326-337 | each season-filtered pool keeps exactly its items that list the season or `All` |
| Wardrobe.SeasonFilterCanEmptySufficientPools | backend/service/outfits-service.js:304-337 | a wardrobe can pass the sufficiency test and still lose all its shoes to the later season filter |
| Wardrobe.Ids | backend/service/outfits-service.js:340-342 | the id list has one entry per outfit, in order, each that outfit's id |
| Wardrobe.OutfitsOf | backend/service/outfits-service.js:57 | `Outfit.find({ user })`, also at line 340; a definition, whose result is proved by `QueryMembers` |
| Wardrobe.WithId | backend/service/outfits-service.js:144 | `Outfit.find({ _id })`; a definition, whose result is proved by `QueryMembers` and `WithIdFound` |
| Wardrobe.ClothesOf | backend/service/outfits-service.js:48 | `Clothes.find({ user })`; a definition, whose result is proved by `QueryMembers` |
| Wardrobe.QueryMembers | backend/service/outfits-service.js:144 | `find({ user })` and `find({ _id })` return exactly the stored entries matching the query |
| Wardrobe.WithIdFound | backend/service/outfits-service.js:144-154 | the lookup by id finds a record iff the id is among the stored ids |
| Wardrobe.AppendFreshKeepsUnique | backend/service/outfits-service.js:174-187 | appending a record with a new id keeps ids unique |
| Store.RandomInt | backend/service/outfits-service.js:360 | `randomInt(n)` lies in `[0, n)` |
| Store.RandomIntCoversRange | backend/service/outfits-service.js:360 | every value in `[0, n)` is drawn by some source |
| Store.Database.FindClothes | backend/service/outfits-service.js:48 | `Clothes.find({ user })` returns the user's items and counts one call, or nothing when the call throws |
| Store.Database.FindOutfitsOf | backend/service/outfits-service.js:57 | `Outfit.find({ user })` returns the user's outfits and counts one call, or nothing when the call throws |
| Store.Database.FindOutfitById | backend/service/outfits-service.js:144 | `Outfit.find({ _id })` returns the outfits with that id and counts one call, or nothing when the call throws |
| Store.Database.Save | backend/service/outfits-service.js:186-187 | `save` appends the record exactly when the call does not throw and the id is new; ids stay unique |
| Seasons.SeasonNorth | backend/service/outfits-service.js:430-433 | the season is always one of Winter, Spring, Summer, Fall |
| Seasons.SeasonNorthIsQuarter | backend/service/outfits-service.js:430-433 | `floor(m / 12 * 4) % 4` is `m / 3` for every month index 0..11 |
| Seasons.SeasonNorthTable | backend/service/outfits-service.js:430-433 | months 0-2 Winter, 3-5 Spring, 6-8 Summer, 9-11 Fall |
| Seasons.SeasonFromTemperature | backend/service/outfits-service.js:440-445 | the four `if`s in order, `None` where the function falls off its end; its meaning is `SeasonFromTemperatureRanges` |
| Seasons.SeasonFromTemperatureRanges | backend/service/outfits-service.js:440-445 | above 20 Summer, 15 to 20 Fall, 10 to below 15 Spring, nothing below 10, never Winter |
| Events.Words | backend/service/outfits-service.js:92 | the words of a summary contain no space and joined by spaces give the lower-cased summary |
| Events.IsFormalSummary | backend/service/outfits-service.js:92-94 | a summary is formal when some word of its lower-cased, space-split text is one of the five keywords |
| Events.FormalSummaries | backend/service/outfits-service.js:91-99 | the summaries the `forEach` pushes, in calendar order; its membership is `FormalSummariesMembers` |
| Events.FormalSummariesMembers | backend/service/outfits-service.js:91-99 | the recorded events are exactly the summaries with a keyword among their words |
| Events.WordsOfJoined | backend/service/outfits-service.js:92-94 | a summary that reads as given words is formal iff one of those words is a keyword |
| Events.FormalMeetingEventIsFormal | backend/service/outfits-service.js:91-99 | "formal meeting event" is recorded |
| Events.RegularEventIsNotFormal | backend/service/outfits-service.js:91-99 | "regular event" is not recorded |
| Events.CapitalisedMeetingIsFormal | backend/service/outfits-service.js:92 | "Team Meeting Today" is recorded: matching ignores ASCII case |
| Events.SubstringIsNotAWord | backend/service/outfits-service.js:93-94 | "Meetingroom booking" is not recorded: only whole words match |
| Events.IsTodayFormal | backend/service/outfits-service.js:70-72 | the filter's test: created today and formal; a definition, whose use is proved by `TodayFormalOutfits` |
| Events.TodayFormalOutfits | backend/service/outfits-service.js:69-73 | the filter throws iff some outfit has an invalid date, with that message; otherwise it keeps exactly today's formal outfits |
| Events.FormalWarning | backend/service/outfits-service.js:238-242 | the fixed sentence followed by each event and a line break; read back by `EventsReadBackFromWarning` |
| Events.EventLines | backend/service/outfits-service.js:240-242 | the lines the warning loop appends; a definition, whose meaning is proved by `EventLinesAreJoined` |
| Events.EventLinesAreJoined | backend/service/outfits-service.js:240-242 | the accumulated lines are the events joined by line breaks, plus a final line break |
| Events.EventsReadBackFromWarning | backend/service/outfits-service.js:238-242 | the warning starts with the fixed sentence, and the events can be read back from the rest in order |
| Search.PicksShirt | backend/service/outfits-service.js:360-362 | `randomInt(2)` read as a condition; a definition, whose effect is proved by `SearchKeepsFirstShoe` and `SearchFindsWhenBothNovel` |
| Search.Candidate | backend/service/outfits-service.js:362-368 | the triple examined at one step; a definition, whose admissibility is proved by `SearchSound` |
| Search.Novel | backend/service/outfits-service.js:367 | the hashed id is not among the user's outfit ids; a definition, proved by `SearchSound` |
| Search.ScanShoes | backend/service/outfits-service.js:359-372 | the shoes loop: one coin draw per shoe, stopping at the first novel candidate |
| Search.ScanTrousers | backend/service/outfits-service.js:358-374 | the trousers loop: a triple its shoes loop finds replaces the one chosen before |
| Search.ScanShirts | backend/service/outfits-service.js:357-375 | the shirt loop over the trousers loop |
| Search.ScanOuterwear | backend/service/outfits-service.js:356-376 | the outerwear loop over the shirt loop |
| Search.SearchOutfit | backend/service/outfits-service.js:355-376 | the whole search from nothing chosen; its properties are `SearchSound`, `SearchNeedsOuterwearAndShirt`, `SearchFindsWhenBothNovel`, `SearchKeepsLastFound` and `SearchKeepsFirstShoe` |
| Search.ScanShoesSound | backend/service/outfits-service.js:359-372 | the shoes loop only chooses a novel triple from the pools and never draws fewer numbers |
| Search.ScanTrousersSound | backend/service/outfits-service.js:358-374 | the trousers loop keeps a chosen triple admissible |
| Search.ScanShirtsSound | backend/service/outfits-service.js:357-375 | the shirt loop keeps a chosen triple admissible |
| Search.ScanOuterwearSound | backend/service/outfits-service.js:356-376 | the outerwear loop keeps a chosen triple admissible |
| Search.SearchSound | backend/service/outfits-service.js:355-376 | a chosen triple's hash is not an existing id, its upper is from outerwear or shirts, its trousers and shoes from their pools |
| Search.ScanOuterwearWithoutShirts | backend/service/outfits-service.js:356-357 | with no shirts the outerwear loop changes nothing |
| Search.SearchNeedsOuterwearAndShirt | backend/service/outfits-service.js:356-357 | with no outerwear or no shirt nothing is chosen and nothing is drawn |
| Search.ScanShoesFinds | backend/service/outfits-service.js:359-372 | the shoes loop chooses when some shoe makes both candidates novel |
| Search.ScanTrousersKeeps | backend/service/outfits-service.js:358-374 | once chosen, the trousers loop never unsets the choice |
| Search.ScanTrousersFinds | backend/service/outfits-service.js:358-374 | the trousers loop chooses when some trousers and shoes make both candidates novel |
| Search.ScanShirtsKeeps | backend/service/outfits-service.js:357-375 | once chosen, the shirt loop never unsets the choice |
| Search.ScanShirtsFinds | backend/service/outfits-service.js:357-375 | the shirt loop chooses when some shirt, trousers and shoes make both candidates novel |
| Search.ScanOuterwearKeeps | backend/service/outfits-service.js:356-376 | once chosen, the outerwear loop never unsets the choice |
| Search.ScanOuterwearFinds | backend/service/outfits-service.js:356-376 | the outerwear loop chooses when some combination makes both candidates novel |
| Search.SearchFindsWhenBothNovel | backend/service/outfits-service.js:355-376 | if some combination is novel whichever way the coin falls, something is chosen |
| Search.SearchKeepsLastFound | backend/service/outfits-service.js:371 | `break` leaves only the shoes loop: with two trousers, the triple with the second one wins |
| Search.SearchKeepsFirstShoe | backend/service/outfits-service.js:359-372 | within one trousers step the first novel shoes are kept: with two novel shoes the first is chosen after one draw |
| Generation.FetchClothes | backend/service/outfits-service.js:46-52 | `getAllClothes`: the user's items, or the previous list when the store call throws (caught); one store call either way |
| Generation.NormalDraft | backend/service/outfits-service.js:289-388 | normal selection on values: fetch, non-formal pools, sufficiency, season filter, the id query, the search; its outcomes are `NormalDraftOutcome` |
| Generation.FormalPick | backend/service/outfits-service.js:252-268 | the formal random choice, draw by draw in source order; its properties are `FormalPickFromPools` and `FormalPickCanChooseAny` |
| Generation.WithWarning | backend/service/outfits-service.js:246-249 | `{ ...result, warning }`: the selection's result with its warning replaced, an escaped exception left as it is |
| Generation.FormalDraft | backend/service/outfits-service.js:216-286 | formal selection on values, with the fallback to normal selection; its outcomes are `FormalDraftOutcome` |
| Generation.SaveResult | backend/service/outfits-service.js:121-213 | `saveOutfit` on values; its cases are `SaveDeclined`, `SaveExisting`, `SaveNew`, `SaveStoreFailures` |
| Generation.FetchOutfits | backend/service/outfits-service.js:55-61 | `getAllOutfits`: the user's outfits, or the previous list when the store call throws (caught) |
| Generation.SetupResult | backend/service/outfits-service.js:397-408 | the set-up's three helpers inside the `try`; its cases are `SetupFailsIff` and `SetupReadsTodaysFormalContext` |
| Generation.NeedsFormal | backend/service/outfits-service.js:411 | the first branch's condition: no formal outfit today and at least one formal event |
| Generation.GenerateResult | backend/service/outfits-service.js:397-423 | a whole run on values; its outcomes are the run lemmas below |
| Generation.Finish | backend/service/outfits-service.js:422-423 | the end of a run: an exception escaped from selection is a crash, otherwise the draft goes through `saveOutfit` |
| Generation.SetupFailsIff | backend/service/outfits-service.js:397-408 | the set-up fails iff an outfit read has an invalid date or the calendar reply cannot be read, with that exception's message |
| Generation.SetupReadsTodaysFormalContext | backend/service/outfits-service.js:64-100 | a set-up whose user's outfits all have valid dates records exactly that user's formal outfits of today and exactly the formal events; other users' dates play no part |
| Generation.SetupIgnoresOtherUsersDates | backend/service/outfits-service.js:57 | an invalid date on another user's outfit still gives a successful set-up |
| Generation.InitFailureOutcome | backend/service/outfits-service.js:401-407 | a set-up failure answers "Failed to initialize" with the message as warning and stores nothing |
| Generation.NormalRunOutcome | backend/service/outfits-service.js:410-422 | when normal selection is decided: too few clothes answers "Failed to generate an outfit" and stores nothing; a success is `normal`, the current season, no warning, non-formal in-season items, an id new to the user |
| Generation.FormalRunOutcome | backend/service/outfits-service.js:410-413 | when formal selection is decided with enough formal clothes and both store calls succeed: a success with `formal`, `All`, no warning, formal items of the right categories, under the triple's hash |
| Generation.FormalFallbackRunOutcome | backend/service/outfits-service.js:233-250 | formal selection with too few formal clothes: a success is a normal outfit carrying the events warning; too few normal clothes answers "Failed to generate an outfit" without it |
| Generation.FormalOutfitOnlyWhenNeeded | backend/service/outfits-service.js:410-420 | a formal outfit is answered only when no formal outfit was made today and some formal event exists |
| Generation.SaveEchoesDraft | backend/service/outfits-service.js:155-211 | a successful save answers with the draft's items, occasions, seasons and warning, for the requesting user |
| Generation.NormalDraftOwnership | backend/service/outfits-service.js:290-297 | normal selection keeps the clothes list the user's and chooses only the user's items |
| Generation.FormalDraftOwnership | backend/service/outfits-service.js:217-224 | formal selection and its fallback keep the clothes list the user's and choose only the user's items |
| Generation.RunChoosesUsersClothes | backend/service/outfits-service.js:37-48 | starting from the user's (empty) clothes list, a successful run answers for the user with the user's items only |
| Generation.FormalPickFromPools | backend/service/outfits-service.js:252-268 | the formal pick takes its upper from outerwear or shirts, its trousers and shoes from their pools, with three or four draws |
| Generation.FormalPickCanChooseAny | backend/service/outfits-service.js:252-268 | every admissible formal triple is picked by some random source |
| Generation.FormalDraftOutcome | backend/service/outfits-service.js:216-286 | with enough formal clothes: a formal triple, occasions `formal`, seasons `All`; otherwise the normal result with the event warning replacing its warning |
| Generation.NormalDraftOutcome | backend/service/outfits-service.js:289-387 | declined iff too few non-formal clothes; crash iff the id query throws; otherwise occasions `normal`, the current season, and any chosen item non-formal, in season, of its category, with a new id |
| Generation.NormalWithoutSeasonOuterwearCrashes | backend/service/outfits-service.js:355-387 | enough clothes but no outerwear or no shirt in season: selection reports success with nothing chosen, and saving crashes |
| Generation.SaveDeclined | backend/service/outfits-service.js:122-127 | a declined draft answers "Failed to generate an outfit", dropping message and warning, store untouched |
| Generation.SaveExisting | backend/service/outfits-service.js:153-172 | an id already stored returns that record's id, clothes, created and opinion with the fresh occasions, seasons and items; store unchanged |
| Generation.SaveNew | backend/service/outfits-service.js:174-212 | a new id stores exactly one record with the three ids and opinion `unknown`, and returns it |
| Generation.SaveStoreFailures | backend/service/outfits-service.js:142-194 | a throwing lookup answers "Failed to search outfit", a throwing save "Failed to save outfit"; neither stores anything |
| Generation.SaveKeepsStoreUnique | backend/service/outfits-service.js:121-213 | saving keeps ids unique and adds at most one record, with a new id, only on success and under the returned id |
| Generation.FinishKeepsStoreUnique | backend/service/outfits-service.js:422-423 | ending a run keeps ids unique and adds at most one record |
| Generation.GenerateKeepsStoreUnique | backend/service/outfits-service.js:397-423 | a whole run keeps ids unique, adds at most one record with a new id, and adds none when it returns an existing outfit |
| Store.Database.constructor | backend/service/outfits-service.js:8-9 | a store holding the given clothes and outfits, with unique outfit ids and no calls made |
| OutfitsService.OutfitGenerator.constructor | backend/service/outfits-service.js:38-42 | the closure starts with empty lists |
| OutfitsService.OutfitGenerator.Draw | backend/service/outfits-service.js:360 | one `randomInt` call: the next draw of the source, below `n` |
| OutfitsService.OutfitGenerator.GetAllClothes | backend/service/outfits-service.js:46-52 | the clothes list becomes the user's items, or stays as it was when the call throws |
| OutfitsService.OutfitGenerator.GetAllOutfits | backend/service/outfits-service.js:55-61 | the outfit list becomes the user's outfits, or stays as it was when the call throws |
| OutfitsService.OutfitGenerator.GetTodayFormalOutfits | backend/service/outfits-service.js:64-74 | today's formal outfits are filtered from the outfit list, or the invalid-date exception escapes and nothing changes |
| OutfitsService.OutfitGenerator.GetTodayFormalEvents | backend/service/outfits-service.js:77-100 | the formal summaries are appended in order; a failed call appends nothing; an unreadable reply throws |
| OutfitsService.OutfitGenerator.PushIfFormal | backend/service/outfits-service.js:91-99 | a summary is pushed once exactly when one of its words is a keyword |
| OutfitsService.OutfitGenerator.CreateNormalOutfit | backend/service/outfits-service.js:289-388 | the new state and result are those of normal selection |
| OutfitsService.OutfitGenerator.FindNewOutfit | backend/service/outfits-service.js:355-376 | the four loops choose exactly what the search function chooses, drawing the same numbers |
| OutfitsService.OutfitGenerator.CreateFormalOutfit | backend/service/outfits-service.js:216-286 | the new state and result are those of formal selection |
| OutfitsService.OutfitGenerator.NoFormalClothesWarning | backend/service/outfits-service.js:238-242 | the loop builds the sentence followed by each event and a line break |
| OutfitsService.OutfitGenerator.PickFormal | backend/service/outfits-service.js:252-268 | the random formal pick, with its draws in source order |
| OutfitsService.OutfitGenerator.SaveOutfit | backend/service/outfits-service.js:121-213 | response and store are those of saving; ids stay unique |
| OutfitsService.OutfitGenerator.Initialize | backend/service/outfits-service.js:397-408 | the set-up's state changes, and its exception message when it throws |
| OutfitsService.OutfitGenerator.Select | backend/service/outfits-service.js:410-420 | the three-way branch runs formal selection exactly when the decision rule says so |
| OutfitsService.OutfitGenerator.GenerateOutfit | backend/service/outfits-service.js:397-423 | a whole run's response, store and counters are those of the run function; ids stay unique |

## Behaviour of the code worth knowing

- The search's `break` leaves only the shoes loop. Within one trousers
  step the first novel shoes are kept (`Search.SearchKeepsFirstShoe`). A
  later (outerwear, shirt, trousers) step that finds a novel triple
  replaces the earlier choice. So the first novel shoes of the last step
  that finds any win (`Search.SearchKeepsLastFound`).
- The search loops over outerwear × shirts. With either pool empty nothing
  is chosen, although the sufficiency test accepts either one alone.
- Sufficiency is checked before the season filter. The filter can still
  empty a pool (`Wardrobe.SeasonFilterCanEmptySufficientPools`).
- When nothing is chosen, normal selection still reports success. Saving
  then reads `.id` of `undefined`, an exception nothing catches. This is the
  response `Crashed` (`Generation.NormalWithoutSeasonOuterwearCrashes`).
- The `Outfit.find` at line 340 is outside any `try`. A store failure there
  also ends the run with `Crashed`.
- The lookup by id in `saveOutfit` is not restricted to the user, so an
  outfit of another user with the same id is returned as existing.
- `backend/__tests__/service/outfits-service.test.js:130` expects a message
  "Too few clothes…", which the service never returns. Too few normal
  clothes ends in "Failed to generate an outfit", because `saveOutfit`
  replaces the selection's "Add more clothes to get outfit!"
  (`Generation.NormalRunOutcome`).

## Left out

- Weather: `getTodayWeather`, `TodayWhether` and the weather service are not part of this model. Their call is commented out, so no run reaches them.
- `cartesian` and `COLOURS`: their values are never read, so they do not affect any response.
- Dates and time zones: `toLocaleString`, `toISOString`, `getTimezoneOffset` and `timestampToDate` are replaced by inputs. These are today's date string, the month index and the new record's creation time. A creation date is either an instant with its ISO text or an invalid date.
- `getCalendarEvents` is not part of this model. Its reply is an input: the call threw, a list of summaries, or a reply whose reading throws.
- `hashCode` and `randomInt` are not part of this model. They are a hash parameter and a random source.
- Logging (`LOG.error`) has no effect on results and is left out.
- Lower-casing: `Builtins.Lower` maps the ASCII letters only. Unicode case mapping is not modelled.
- Seasons.SeasonNorth: the floating-point product `month / 12 * 4` is modelled with exact reals. For month indices 0..11 the floor is the same.
- Store failures are a predicate of the call number. What the database does beyond returning and appending records is not modelled: indexes, validation, and concurrent writers racing between the lookup and the save.
- Generation.SaveExisting: `existingOutfits[0] instanceof Outfit` is taken to hold, because the store only returns records.
- Generation.SaveNew: the new response names its id `_id` and the existing one `id`. Both are the `id` field of `OutfitView`.
- OutfitsService.OutfitGenerator.GetTodayFormalEvents: on a reply whose reading throws, the model leaves the event list unchanged. The source may already have pushed earlier formal events before the `TypeError` at line 92. The list is never read once the set-up has failed.
- Every `await` runs in sequence, so there is no concurrency to model.
- The test files and the Android front end are not part of this model.
