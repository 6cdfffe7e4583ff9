# Recipe notebook: filter/sort engine, validator, URL state and submit path

This project models the logic of a small recipe-notebook web application and
proves what it promises. There are four pieces:

- **The filter/sort engine** (`filterRecipes`, `sortRecipes`).
  - The filter keeps the records whose title, ingredients or notes contain
    the trimmed, lower-cased query, and whose category and status match when
    those are set.
  - The sort returns a copy of the list, stably sorted by one of four keys:
    `created-desc`, `created-asc`, `time-asc` and `time-desc`.
  - A missing cook time counts as 9999 under `time-asc` and as -1 under
    `time-desc`.
  - Under an unknown key every comparison is "equal", so nothing moves.
  - The model sorts with an insertion sort, in place on a fresh array. It
    moves a record left only past strictly greater records. A ghost
    permutation records where each output element came from.
    `Array.prototype.sort` leaves the algorithm to the engine and guarantees
    only stability. A stable sort with a consistent comparator has only one
    possible result, so any stable sort gives the same order.
- **The validator** (`validateRecipe`). It fills a per-field error map
  block by block:
  - the title must be 1 to 20 characters after trimming. Both title checks
    write `title`, but at most one fires, because an empty trimmed title has
    length 0;
  - the cook time must be finite and in [0, 600];
  - the source URL must start with `http://` or `https://`.
- **The home page** (`HomePage`), a class holding the record list, the
  filter object and the URL parameters.
  - It carries the URL codec (`paramsToState`, `stateToParams`) and the
    add/delete/filter-change handlers.
  - It carries the effect that re-derives the filters from the URL.
  - It computes the visible list `sortRecipes(filterRecipes(...))`.
- **The submit path of the form** (`RecipeForm`), a class holding the nine
  text fields and the error map.
  - Submitting builds the candidate record: non-empty trimmed lines, with
    empty fields becoming `null` or `undefined`.
  - It validates the record. On failure it shows the errors. On success it
    hands the record to `onAdd` and resets the fields.

The URL codec's keys do not line up, and the model keeps this as the code
has it:

- `paramsToState` fills the fields `cat` and `st`.
- `stateToParams` and the filter call read `category` and `status`.

A category or status chosen in a dropdown therefore reaches the URL. When
that changes the URL, the effect that re-derives the filters moves the
choice into `cat`/`st`, where nothing reads it. A state decoded from the URL
never restricts by category or status. Decoding `q=egg&cat=main` sets `cat`,
not `category` (`Home.EggMainExample`); see also
`Home.ReencodingDropsCategory` and `Home.HomePage.ChangeFilterThenSync`.

Modules:

| module | file | content |
|---|---|---|
| `Wrappers` | `wrappers.dfy` | `Option` |
| `Text` | `text.dfy` | `trim`, ASCII `toLowerCase`, `includes`, `split("\n")`/`join("\n")` |
| `Seqs` | `seqs.dfy` | `Array.prototype.filter` and its subsequence facts |
| `Recipes` | `recipes.dfy` | the record types |
| `Logic` | `logic.dfy` | filter and sort |
| `Validation` | `validation.dfy` | the validator |
| `Home` | `home.dfy` | the URL codec and `class HomePage` |
| `Form` | `form.dfy` | building the input and `class RecipeForm` |

## Model

| member | source | states |
|---|---|---|
| Logic.FilterRecipes | src/features/recipes/logic.js:1-13 | every returned record comes from the input and passes the text, category and status tests; every input record that passes all three is returned |
| Logic.FilterIsSubsequence | src/features/recipes/logic.js:3-12 | the result is the input at strictly increasing positions (order kept, nothing added), and a position is selected iff its record passes all three tests |
| Logic.BlankQueryAcceptsAll | src/features/recipes/logic.js:2-5 | a blank or white-space-only query prepares to the empty string, and the empty query accepts every record's text |
| Logic.QueryCaseInsensitive | src/features/recipes/logic.js:2 | lower-casing the query first changes nothing: the prepared query of `Lower(q)` equals that of `q` |
| Logic.TextOkIsOccurrence | src/features/recipes/logic.js:4-8 | a non-empty prepared query passes the text test iff it occurs in the lower-cased title, in some lower-cased ingredient, or in the lower-cased notes; missing ingredients or notes count as empty |
| Logic.NoCategoryNoStatus | src/features/recipes/logic.js:9-11 | with category and status unset, a record is kept iff its text matches |
| Logic.InsertRecord | src/features/recipes/logic.js:24 | one insertion step: if the first `i` slots are a stable sort of the first `i` inputs, afterwards the first `i + 1` are |
| Logic.CopyToArray | src/features/recipes/logic.js:16 | `[...recipes]` is a fresh array holding exactly the records |
| Logic.InsertionSort | src/features/recipes/logic.js:18-24 | sorting in place leaves the array a stable sort of its old contents under the key's comparator, and a permutation of them |
| Logic.SortRecipes | src/features/recipes/logic.js:15-25 | the result is a permutation of the input, ordered by the comparator and stable on ties; an unknown key keeps the input order; `created-desc` gives non-increasing and `created-asc` non-decreasing `createdAt`; with every cook time in [0, 600], records without one come last under both time keys |
| Logic.Compare | src/features/recipes/logic.js:18-23 | each comparator of the table is the difference of the two records' ranks (`-createdAt`, `createdAt`, `cookTime ?? 9999`, `-(cookTime ?? -1)`, or 0 for an unknown key), so a negative result puts `a` first exactly when its rank is smaller |
| Logic.SortConsequences | src/features/recipes/logic.js:18-23 | what a stable sort by each comparator of the table implies: the order per key, identity under an unknown key, and records without a cook time last |
| Logic.UnknownKeyKeepsOrder | src/features/recipes/logic.js:24 | when `cmp[sort]` is `undefined` every pair compares equal, so a stable sort leaves the list unchanged |
| Validation.CheckTitle | src/features/recipes/validation.js:4-6 | the two writes to `title` leave the length message for a trimmed title over 20 characters, the required message for an empty one, and nothing otherwise (at most one of the two checks fires) |
| Validation.CheckCookTime | src/features/recipes/validation.js:8-14 | the cook-time block skips `null`, stores the number message for a non-finite value and the range message outside [0, 600] |
| Validation.CheckSourceUrl | src/features/recipes/validation.js:16-18 | the URL block stores its message only for a present, non-empty URL not starting with `http://` or `https://` |
| Validation.PutThreeFields | src/features/recipes/validation.js:2-18 | the three blocks, run from the empty map, leave exactly one entry per failing field and no other key |
| Validation.ValidateRecipe | src/features/recipes/validation.js:1-21 | the error map holds exactly the failing fields' messages; `valid` iff the map is empty iff no rule fires |
| Validation.ErrorMapUnique | src/features/recipes/validation.js:2-18 | the rules fix the error map: two maps that both fit an input are equal |
| Validation.EmptyIffAccepted | src/features/recipes/validation.js:20 | the error map is empty exactly when every field passes |
| Validation.TitleRules | src/features/recipes/validation.js:4-6 | a blank title gets the required message; a trimmed title over 20 characters gets the length message; a title passes iff its trimmed length is 1 to 20 |
| Validation.CookTimeRules | src/features/recipes/validation.js:8-14 | `null` passes; NaN gets the number message; an integer passes iff it is in [0, 600], with 0 and 600 accepted and -1 and 601 rejected |
| Validation.SourceUrlRules | src/features/recipes/validation.js:16-18 | an absent or empty URL passes; a non-empty one passes iff it starts with `http://` or `https://` |
| Validation.AcceptedInputIsWellFormed | src/features/recipes/validation.js:1-21 | an accepted input has a trimmed title of 1 to 20 characters, an integer cook time in [0, 600] if any, and an http(s) URL if a non-empty one is given |
| Validation.ValidationExamples | src/features/recipes/validation.js:4-18 | 21 characters and a blank title are rejected while 20 characters pass; 700 and NaN are rejected; `ftp://x` is rejected and `https://x` passes |
| Home.ParamsToState | src/pages/HomePage.jsx:16-23 | `q` is the parameter or ""; `cat`/`st` are set iff their parameter is present and non-empty, and then equal it; `sort` is the parameter when present and non-empty, and `created-desc` otherwise; `category`/`status` are never set |
| Home.StateToParams | src/pages/HomePage.jsx:25-32 | the map carries `q` iff it is non-empty, `cat` iff `category` is set, `st` iff `status` is set, `sort` iff it is set and not `created-desc`, each with its value, and no other key |
| Home.EncodingUnique | src/pages/HomePage.jsx:25-32 | a state has only one encoding |
| Home.RoundTrip | src/pages/HomePage.jsx:16-32 | decoding the encoding of `s` gives back `s.q`, and gives back `s.sort` or `created-desc` when it is unset; the chosen category and status come back under `cat`/`st` and `category`/`status` come back unset |
| Home.ReencodingDropsCategory | src/pages/HomePage.jsx:16-32 | re-encoding a state decoded from the URL emits neither `cat` nor `st` |
| Home.DecodedStateIgnoresCategory | src/pages/HomePage.jsx:41 | the list filtered with a state decoded from the URL keeps exactly the records whose text matches |
| Home.EggMainExample | src/pages/HomePage.jsx:16-32 | `{q: "egg", category: "main"}` encodes to `q=egg&cat=main`, which decodes with `cat` set and `category` unset |
| Home.WithoutIdIsSubsequence | src/pages/HomePage.jsx:56 | deleting keeps, in order, exactly the records with another id |
| Home.WithoutIdKeepsInvariant | src/pages/HomePage.jsx:56 | deleting keeps ids unique and cook times finite |
| Home.DeleteRemovesOne | src/pages/HomePage.jsx:56 | with unique ids, deleting an id that is present shortens the list by exactly one |
| Home.HomePage.constructor | src/pages/HomePage.jsx:36-40 | mounting holds the stored list, the current parameters and the filters decoded from them |
| Home.HomePage.Add | src/pages/HomePage.jsx:46-53 | the new record, holding the input's fields plus the given id and timestamp, is at index 0; the old records follow in order; the length grows by one; filters and parameters are unchanged |
| Home.HomePage.Delete | src/pages/HomePage.jsx:54-58 | a confirmed delete keeps exactly the records with another id; an unconfirmed one changes nothing |
| Home.HomePage.FilterChange | src/pages/HomePage.jsx:60-63 | the filters become `next` and the parameters its encoding; the records are unchanged |
| Home.HomePage.SyncFromParams | src/pages/HomePage.jsx:41 | the filters become the decoding of the current parameters |
| Home.HomePage.ChangeFilterThenSync | src/pages/HomePage.jsx:41-63 | after a filter change and the effect it triggers, the parameters are the encoding of `next` and the filters its decoding: `category` and `status` are unset, the chosen ones sit in `cat`/`st`, `q` is kept and `sort` is kept (`created-desc` when unset) |
| Home.HomePage.Visible | src/pages/HomePage.jsx:65-72 | the visible list is a stable sort, by the current sort key, of the records filtered by the debounced query, `category` and `status`: a permutation of them, with non-increasing `createdAt` under `created-desc` |
| Form.TrimEach | src/components/RecipeForm.jsx:24 | `map(s => s.trim())`: the same number of items, each one trimmed |
| Form.LinesAreTrimmed | src/components/RecipeForm.jsx:22-29 | every built list item is non-empty, has no white space at either end and lies within one line |
| Form.LinesInOrder | src/components/RecipeForm.jsx:22-29 | the items are the trimmed lines at increasing positions, and a line yields an item iff it is not blank |
| Form.LinesRoundTrip | src/components/RecipeForm.jsx:22-25 | typing non-empty trimmed items one per line gives back exactly those items |
| Form.BuildInput | src/components/RecipeForm.jsx:18-34 | title, category and status are passed as typed; ingredients and steps are `Lines` of their text, so their items are non-empty, trimmed and in line order; empty cook time and servings become `null`, others their `Number` value; empty URL and notes become `undefined`, others the text |
| Form.RecipeForm.constructor | src/components/RecipeForm.jsx:5-14 | a fresh form has category `main`, status `want`, every text field empty and no errors |
| Form.RecipeForm.Submit | src/components/RecipeForm.jsx:16-55 | `onAdd` receives the built input iff it is accepted; on failure the errors are the validator's map and the fields are kept; on success the errors are cleared and the fields reset |
| Form.RecipeForm.Reset | src/components/RecipeForm.jsx:46-54 | the nine setters bring back category `main`, status `want` and every text field empty, and leave the errors as they are |
| Text.TrimIsInnerSlice | src/features/recipes/logic.js:2 | `trim` returns a slice with only white space outside it and none at its ends; it is empty iff the input is blank |
| Text.TrimIdempotent | src/components/RecipeForm.jsx:24 | trimming twice is trimming once |
| Text.LowerTrimCommute | src/features/recipes/logic.js:2 | lower-casing is idempotent and commutes with trimming |
| Text.ContainsIff | src/features/recipes/logic.js:6-8 | `includes` holds iff the needle occurs at some position |
| Text.JoinSplit | src/components/RecipeForm.jsx:23 | splitting on newlines loses nothing: joining the pieces gives back the text |
| Text.Split | src/components/RecipeForm.jsx:23 | `split("\n")` always returns at least one piece (`""` gives `[""]`), and no piece contains a newline |
| Text.SplitJoin | src/components/RecipeForm.jsx:23 | splitting the newline join of newline-free pieces gives back the pieces |
| Seqs.KeepMembers | src/features/recipes/logic.js:3 | `filter` returns only elements of its input, and every element that passes the predicate |
| Seqs.Keep | src/features/recipes/logic.js:3 | `filter` returns no more elements than its input, and every returned element passes the predicate (used again at src/pages/HomePage.jsx:56 and src/components/RecipeForm.jsx:25) |
| Seqs.KeepSelects | src/features/recipes/logic.js:3 | `filter` returns its input at the strictly increasing positions of the passing elements |

## Left out

- Storage (`localStorage`, JSON) is not part of this model. The stored list is the `HomePage` constructor's parameter. It is assumed to have unique ids and no non-finite cook time: the page saves only lists it built itself, with ids from `randomUUID`, and JSON cannot store a non-finite number. Saving after each change is not modelled.
- The debounce hook, which is timer based, is not part of this model. The debounced query is the parameter `q` of `HomePage.Visible`.
- Rendering, React's hooks and the memoisation are not part of this model. Only the state transitions they carry are modelled.
- `crypto.randomUUID()` and `Date.now()` are parameters of `HomePage.Add`. The id is required to be fresh.
- `window.confirm` is the boolean parameter `confirmed` of `HomePage.Delete`.
- `Number(text)` coercion is the parameter `toNumber` of `RecipeForm.Submit`.
- Numbers are integers or "non-finite". Fractional values such as `2.5` and negative zero are not modelled.
- `toLowerCase` maps ASCII letters only; Unicode case mapping is not modelled. `trim` uses the full ECMAScript white-space set.
- String lengths count code points rather than UTF-16 code units. The 20-character title limit therefore differs for characters outside the Basic Multilingual Plane.
- `URLSearchParams` is modelled as a map from key to string. Percent-encoding, repeated keys and parameter order are not modelled.
- Logic.SortRecipes: requires that no cook time be NaN when sorting by a time key, because a NaN comparison makes the comparator inconsistent and `Array.prototype.sort` then gives an implementation-defined order. `HomePage` keeps this as an invariant, and the validator guarantees it for added records.
- Recipe titles are strings, and ingredient items are strings rather than possibly `null`. `input.title || ""` and `i || ""` are therefore modelled as the value itself.
- Sort keys that name an inherited `Object.prototype` member are not modelled. `sort=__proto__` makes `arr.sort` throw, because `Object.prototype` is not callable. `sort=valueOf` and `sort=hasOwnProperty` throw when called with `this` undefined. Every key outside the four is treated as `undefined`, which keeps the order.
- Home.HomePage.ChangeFilterThenSync: assumes the effect of `HomePage.jsx:41` runs after every filter change. The page re-runs it only when the URL's search string changes. If the page was opened at `?cat=main` and the user picks `main`, the URL stays the same and `filters.category` stays set, so the list is restricted by it. That run is `FilterChange` alone.
