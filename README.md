# Pokédex core, modelled in Dafny

This project models the decision logic of a small Next.js Pokédex built on
PokeAPI: the listing page that turns the roster into display records with
Japanese names, the name quiz, and the weight duel. Network requests, the
random source and rendering are outside the model; each request is a
function parameter that maps the request (an address or a number) to its
outcome, and `Math.random()` is a real `r` with `0 <= r < 1`.

Modules, one per component:

- `Species` (`species.dfy`): a species record's `names` list, the outcomes a
  species request can have (`Threw`, or a response with its `ok` flag and a
  parsed `names` list or an unparseable body), and the
  `names.find(n => n.language.name === "ja")` lookup the three pages share.
- `Draw` (`draw.dfy`): `Math.floor(Math.random() * N) + 1`.
- `Catalog` (`catalog.dfy`, app/page.tsx): the number read off each roster
  URL with `split("/").filter(Boolean).pop()`, the Japanese name with its
  three fallback markers (`データなし` for a non-ok response, `不明` when no
  Japanese entry exists, `エラー` when the request or parsing throws), the
  sprite address, and the order-preserving list.
- `TypeNames` (`type_names.dfy`, app/quiz/page.tsx): the eighteen-entry type
  table and its pass-through lookup.
- `Quiz` (`quiz.dfy`, app/quiz/page.tsx): the quiz component as a class
  `QuizPage` over its five state fields, with one method per handler. Each
  method is proved to leave the state given by a pure transition function
  (`AfterBegin`, `AfterLoad`, `AfterInput`, `AfterReveal`, `AfterCheck`), and
  the properties of several steps are lemmas about those functions.
- `WeightDuel` (`weight_duel.dfy`, app/quiz/weight/page.tsx): the duel card
  pair as a class `WeightQuiz` whose two contenders are constants and whose
  `result` and `isAnswered` fields change on the first click only; the
  per-side highlight; the contender fetch and the page's `init`.

## Behaviour worth noting

- The listing page has three fallback markers, not one. A non-ok
  response, a missing Japanese entry and an exception each give a
  different string.
- The duel draws from 1025 Pokémon, the name quiz from 151.
- The duel has no stored winning side. Each card is highlighted when the
  round is answered and that card is at least as heavy as the other, so a
  tie highlights both.
- After a wrong answer the quiz status stays `incorrect` until the next
  check or the next round. The page still shows the input form, so the
  same round can be retried.
- The duel fetches its two contenders one after the other.
- The duel's species lookup never checks the response status. A non-ok
  response whose body parses with a `names` list is used like an ok one.

## Model

| member | source | states |
|---|---|---|
| Species.FindJapanese | app/page.tsx:71 | the `find` gives nothing exactly when no entry of the list is tagged `ja` |
| Species.FindJapaneseIsFirst | app/quiz/page.tsx:52 | what the `find` gives is the name of the first entry tagged `ja` |
| Species.JapaneseOr | app/quiz/weight/page.tsx:99-100 | find-or-fallback: the first `ja` name, or the fallback exactly when there is no `ja` entry |
| Draw.RandomId | app/quiz/page.tsx:40 | `Math.floor(r * N) + 1` lies in [1, N] for every `r` in [0, 1) |
| Draw.RandomIdReachesEvery | app/quiz/weight/page.tsx:90 | every number in [1, N] is drawn for some `r` in [0, 1) |
| Catalog.SplitOnSlash | app/page.tsx:85 | `split("/")` gives at least one piece and no piece contains `/` |
| Catalog.SplitJoin | app/page.tsx:85 | joining the pieces of `split("/")` with `/` gives back the URL |
| Catalog.NonEmptySegments | app/page.tsx:85 | `filter(Boolean)` keeps every non-empty piece and only non-empty pieces |
| Catalog.Last | app/page.tsx:85 | `pop()` gives nothing exactly for the empty list, otherwise the last element |
| Catalog.IdFromUrl | app/page.tsx:85 | `split("/").filter(Boolean).pop()` equals the reference definition `LastSegment` for every URL |
| Catalog.LastSegment | app/page.tsx:85 | the reference definition: nothing when the URL is all slashes, otherwise a non-empty segment without `/` |
| Catalog.IdIsLastSegment | app/page.tsx:85 | split, filter and pop give the last non-empty segment; trailing slashes are ignored |
| Catalog.AfterSlashIsSegment | app/page.tsx:85 | after a slash, a segment without slashes is the whole text after the last slash |
| Catalog.UrlWithTrailingSlash | app/page.tsx:85 | any URL of the form base/segment/ gives that segment |
| Catalog.PikachuUrl | app/page.tsx:85 | any roster address ending in `/25/`, as Pikachu's does, gives `"25"` |
| Catalog.JapaneseName | app/page.tsx:66-76 | an exception or unparseable body gives `エラー`, a non-ok response gives `データなし`, otherwise the first `ja` name or `不明` when there is none |
| Catalog.NotOkIgnoresBody | app/page.tsx:69 | a non-ok response gives `データなし` whatever its body, so the body is not read |
| Catalog.IdText | app/page.tsx:94 | a number prints as itself in a template string; a missing one prints as `undefined` |
| Catalog.SpeciesUrl | app/page.tsx:68 | the species address is the species endpoint followed by the printed number |
| Catalog.ImageUrl | app/page.tsx:94 | the sprite address is the sprite prefix, then the printed number, then `.png` |
| Catalog.ImageUrlInjective | app/page.tsx:94 | two sprite addresses are equal exactly when the numbers they print are equal |
| Catalog.MakeEntry | app/page.tsx:84-96 | one record: the number read off the entry's URL, its English name, the Japanese name from the species request for that number, and the sprite address for that number |
| Catalog.PokemonList | app/page.tsx:84-98 | one record per roster entry, in roster order; record i has entry i's number, English name, Japanese name from its species request, and the sprite address prefix + number + `.png` |
| Catalog.GetPokemonList | app/page.tsx:79-100 | a failed roster request fails the whole list; otherwise the list is exactly `PokemonList` of the roster, one record per entry in roster order |
| Catalog.PokemonListAppend | app/page.tsx:84-98 | the list of a concatenated roster is the concatenation of the lists, so each record depends on its own entry only |
| TypeNames.TranslateType | app/quiz/page.tsx:16-22 | a slug of the table gives its fixed non-empty Japanese word; any other slug comes back unchanged |
| TypeNames.TranslateTypes | app/quiz/page.tsx:56 | the translated types have the same length and order as the source types |
| TypeNames.TranslateTypeIdempotent | app/quiz/page.tsx:16-22 | no Japanese word of the table is a slug, so translating twice equals translating once |
| TypeNames.ElectricAndUnknownSlug | app/quiz/page.tsx:56 | `electric` gives `でんき`; `unknown-slug` is passed through |
| Quiz.QuizJaName | app/quiz/page.tsx:52-53 | the round's answer is the first `ja` name, or `不明` when there is none |
| Quiz.MakeQuiz | app/quiz/page.tsx:58-63 | the round record carries the drawn number, the sprite, the answer and the translated types in source order |
| Quiz.Verdict | app/quiz/page.tsx:72-76 | `correct` exactly when the typed text equals the name; otherwise `incorrect`, never `playing` |
| Quiz.PikachuAnswers | app/quiz/page.tsx:72 | exact match only: `pikachu`, a trailing space and the empty answer are all `incorrect` |
| Quiz.AfterBegin | app/quiz/page.tsx:34-37 | starting a round sets loading, `playing`, an empty answer and a hidden hint, and keeps the previous round |
| Quiz.AfterLoad | app/quiz/page.tsx:58-65 | the arrived round is stored and loading ends; status, answer and hint are unchanged |
| Quiz.AfterInput | app/quiz/page.tsx:130 | typing sets the answer to the typed text and changes nothing else |
| Quiz.AfterReveal | app/quiz/page.tsx:120 | the hint button shows the hint and changes nothing else |
| Quiz.AfterCheck | app/quiz/page.tsx:69-77 | with no round, nothing changes; with a round, `correct` iff the answer equals the name and `incorrect` iff not; only the status changes |
| Quiz.NewRoundResets | app/quiz/page.tsx:33-66 | after a new round the state is the new record, not loading, `playing`, empty answer, hint hidden, whatever it was before |
| Quiz.RevealIdempotent | app/quiz/page.tsx:120 | revealing the hint turns it on, and twice is the same as once |
| Quiz.HintOnlyHiddenByNewRound | app/quiz/page.tsx:34-37 | typing, checking and loading keep a shown hint; starting a round hides it |
| Quiz.RetryAfterIncorrect | app/quiz/page.tsx:69-77 | after a wrong answer the round and hint are kept, and typing the right name then checking gives `correct` |
| Quiz.QuizPage.constructor | app/quiz/page.tsx:26-30 | the component starts with no round, not loading, empty answer, `playing`, hint hidden |
| Quiz.QuizPage.BeginRound | app/quiz/page.tsx:34-40 | before any request: loading, `playing`, empty answer, hint hidden, previous round kept; the drawn number is in [1, 151] |
| Quiz.QuizPage.LoadRound | app/quiz/page.tsx:52-65 | the new round record is stored and loading ends; nothing else changes |
| Quiz.QuizPage.FetchNewQuiz | app/quiz/page.tsx:33-66 | the whole handler: reset, draw in [1, 151], then the record built from that number's two responses |
| Quiz.QuizPage.TypeAnswer | app/quiz/page.tsx:130 | typing replaces the answer text and nothing else |
| Quiz.QuizPage.RevealHint | app/quiz/page.tsx:120 | the hint button sets the hint flag and nothing else |
| Quiz.QuizPage.CheckAnswer | app/quiz/page.tsx:69-77 | the handler leaves the state `AfterCheck` gives |
| WeightDuel.Outcome | app/quiz/weight/page.tsx:24-28 | the clicked card is reported correct exactly when its weight is at least the other's; the message is one of the two |
| WeightDuel.OneClickWins | app/quiz/weight/page.tsx:24 | with different weights exactly one of the two clicks is correct; with equal weights both are |
| WeightDuel.Highlight | app/quiz/weight/page.tsx:39 | a card is highlighted exactly when the round is answered and a click on that card is reported correct |
| WeightDuel.HighlightRule | app/quiz/weight/page.tsx:39 | no card is highlighted before the answer; after it the heavier card is, and both on a tie |
| WeightDuel.WeightKg | app/quiz/weight/page.tsx:44 | the kilograms shown times ten is the stored weight |
| WeightDuel.WeightExamples | app/quiz/weight/page.tsx:56 | 100 tenths show as 10.0 kg and 60 as 6.0 kg |
| WeightDuel.WeightQuiz.constructor | app/quiz/weight/page.tsx:14-16 | a new round holds the two contenders, has no result and is not answered |
| WeightDuel.WeightQuiz.Highlighted | app/quiz/weight/page.tsx:39-52 | card A (card B) is highlighted exactly when answered and a click on A (on B) is reported correct |
| WeightDuel.WeightQuiz.CheckAnswer | app/quiz/weight/page.tsx:18-29 | the first call answers and sets the result for the click; a later call changes nothing; the result is non-empty exactly when answered |
| WeightDuel.WeightQuiz.ClickA | app/quiz/weight/page.tsx:38-39 | a first click on card A is reported correct exactly when card A is highlighted |
| WeightDuel.WeightQuiz.ClickB | app/quiz/weight/page.tsx:51-52 | a first click on card B is reported correct exactly when card B is highlighted |
| WeightDuel.DuelName | app/quiz/weight/page.tsx:95-101 | the first `ja` name of a parsed `names` list, else the English name; a thrown request or unparseable body keeps the English name; the status is not read |
| WeightDuel.FetchRandomPokemon | app/quiz/weight/page.tsx:89-108 | weight and sprite come from the Pokémon whose number is the draw from `r` over 1025 (in [1, 1025] by Draw.RandomId); the name is `DuelName` of its English name and its species outcome |
| WeightDuel.WeightPage.constructor | app/quiz/weight/page.tsx:85-86 | the page starts with neither contender |
| WeightDuel.WeightPage.Init | app/quiz/weight/page.tsx:112-117 | both contenders are set, each from its own independent draw |

## Left out

- Requests, `response.json()`, `Promise.all` and their timing: each request is a function parameter from its address or number to its outcome. One outcome per address means two roster entries with the same number get the same species outcome.
- The unhandled failures of the quiz's and the duel's primary requests, which leave the page loading forever: the model only covers the runs where those requests succeed.
- Floating-point rounding of `Math.random() * N`: the draw is exact real arithmetic. At N = 151 and N = 1025 the largest double below 1 still floors to N - 1, so the range is the same.
- The display of `weight / 10`: kilograms are an exact real, and number formatting is not modelled.
- Rendering, styles, links, the loading screens, the colour of the duel's result text, and `window.location.reload()` as the next-duel button.
- The silhouette quiz page (a reveal flag and sound playback) and the detail page are not part of this model.
- TypeNames.TranslateType: JavaScript looks slugs up on a plain object, so a slug that names an inherited member such as `constructor` would return that member instead of itself; the model treats the table as a map, and PokeAPI does not use such slugs.
- Catalog.NonEmptySegments: its contract says which pieces are kept, not their order; the order that matters, the last kept piece, is stated by Catalog.IdIsLastSegment.
