# Smart fridge: a Dafny model of its domain logic

The smart fridge app is a single-page React app. It keeps a list of food items
with expiry dates and sorts them by how soon they expire. It lets the user
search the inventory and asks a generative model for recipes that use up what
is about to expire. This project models the logic behind those screens:

- **Types** (`types.dfy`) holds the records of `types.ts`: categories, items,
  new-item forms, recipes and languages. Instants are integer milliseconds
  since the epoch.
- **Storage** (`storage.dfy`) is `localStorage`: a class over a map from keys
  to stored values. It also defines the app's keys and the per-language recipe
  cache key.
- **Dashboard** (`dashboard.dfy`) covers days left (rounded up), the four
  status tiers, the first five expiring items, the days label and the
  category glyph.
- **Inventory** (`inventory.dfy`) covers case-insensitive search, the category
  filter with its "all" sentinel, the strict expired mark and the chip list.
- **GeminiService** (`gemini_service.dfy`) covers which names go into the
  recipe request, the language name, and how the reply is read. The model call
  itself is an oracle whose reply is a parameter.
- **RecipeSuggestions** (`recipe_suggestions.dfy`) has a pure `Fetch` that
  specifies `fetchRecipes`. The `RecipePanel` class is proved against it,
  together with the once-a-day refresh gate and the five-tick ad countdown.
- **OnboardingModal** (`onboarding_modal.dfy`) is the four-step walkthrough.
- **AddFoodModal** (`add_food_modal.dfy`) covers the initial form, per-field
  updates, and the submit guard built on JavaScript's `trim`.
- **App** (`app.dfy`) covers page-load state and the persistence effect.
  Adding, deleting and confirming deletes, toggling favourites, onboarding
  completion, the language and the expiring list are in the `FridgeApp`
  class. The pure functions its methods use are proved against
  reload-restores, toggle-twice and "expiring means not fresh" lemmas.
- **Seqs** (`seqs.dfy`) holds `filter`, `slice(0, n)` and `join` as sequence
  functions, with the lemmas the other modules use.

## Model

| member | source | states |
|---|---|---|
| Types.CategoryName | types.ts:2 | each category has a non-empty string value |
| Types.CategoryNameInjective | types.ts:2 | distinct categories have distinct string values, so comparing strings compares categories |
| Types.CategoriesComplete | types.ts:2 | the fixed category order lists every category exactly once |
| Types.LanguageCode | types.ts:24 | each language is stored as a two-letter code |
| Types.LanguageOfCode | types.ts:24 | reading a code back gives the language with that code, and only the five codes are read as languages |
| Storage.CacheKey | components/RecipeSuggestions.tsx:30 | the cache key is the versioned prefix followed by the language code |
| Storage.CacheKeyInjective | components/RecipeSuggestions.tsx:30 | two languages share a cache key only if they are the same language |
| Storage.KeysDisjoint | components/RecipeSuggestions.tsx:30-31 | no cache key equals the items, favourites, language, onboarding or date key, and those five are distinct |
| Storage.Lookup | components/RecipeSuggestions.tsx:38 | `getItem` is null exactly for an absent key, and otherwise returns the stored value |
| Storage.LocalStorage.Get | components/RecipeSuggestions.tsx:38 | `getItem` reads the current entries |
| Storage.LocalStorage.SetItem | components/RecipeSuggestions.tsx:59 | `setItem` replaces exactly one key |
| Storage.LocalStorage.RemoveItem | components/RecipeSuggestions.tsx:47 | `removeItem` drops exactly one key |
| Dashboard.DaysLeft | components/Dashboard.tsx:41 | days left d satisfies (d-1) days < expiry - now <= d days, i.e. the ceiling |
| Dashboard.DaysLeftIsCeiling | components/Dashboard.tsx:41 | those bounds determine days left uniquely |
| Dashboard.DaysLeftExamples | components/Dashboard.tsx:41 | 60 hours out gives 3, exactly two days gives 2, one day ago gives -1 |
| Dashboard.StatusTier | components/Dashboard.tsx:15-20 | expired iff < 0, urgent iff 0..1, soon iff 2..3, fresh iff > 3 |
| Dashboard.Severity | components/Dashboard.tsx:15-20 | ranks the tiers: expired most severe, fresh least |
| Dashboard.TierMonotone | components/Dashboard.tsx:15-20 | more days left never gives a more severe tier |
| Dashboard.TierBoundaries | components/Dashboard.tsx:16-19 | -1 expired, 0 and 1 urgent, 2 and 3 soon, 4 fresh |
| Dashboard.ItemTier | components/Dashboard.tsx:41-42 | the tier of the item's days left; expired iff it expired at least a day ago, urgent iff it is due within a day either side of now, soon iff due in more than one and at most three days, fresh iff due in more than three days |
| Dashboard.RecentlyExpiredIsUrgent | components/Dashboard.tsx:41-42 | an item expired less than a day ago has 0 days left and shows as urgent |
| Dashboard.DaysLabelOf | components/Dashboard.tsx:56 | the label is "!!!" iff days left < 0, otherwise the count |
| Dashboard.ShownExpiring | components/Dashboard.tsx:40 | at most five items are shown; they are the first five, in order |
| Dashboard.CategoryIcon | components/Dashboard.tsx:70-79 | any string other than the five case labels gets the box glyph |
| Dashboard.CategoryIconDistinguishesLabels | components/Dashboard.tsx:72-76 | distinct case labels give distinct glyphs |
| Dashboard.ItemIcon | components/Dashboard.tsx:47 | the item's own icon if it is a non-empty string, otherwise the glyph of its category string |
| Dashboard.CardFor | components/Dashboard.tsx:40-60 | a card keeps the item's id and name, shows the item's tier, the days label of its days left and its icon, and shows "!!!" exactly on expired cards |
| Dashboard.Cards | components/Dashboard.tsx:40-63 | one card per shown item, in order |
| Inventory.LowerChar | components/Inventory.tsx:22 | capitals map to a different, lower-case letter; every other character is unchanged |
| Inventory.LowerCharInverse | components/Inventory.tsx:22 | every small letter of the covered Latin and Vietnamese ranges is the lower case of its own capital |
| Inventory.Lower | components/Inventory.tsx:21-23 | lower-casing works character by character and keeps the length |
| Inventory.LowerIdempotent | components/Inventory.tsx:21-23 | lower-casing twice is lower-casing once |
| Inventory.LowerExamples | components/Inventory.tsx:22 | "Apple" and "apple" lower-case alike; "THỊT BÒ" lower-cases to "thịt bò" |
| Inventory.SearchIgnoresCaseExample | components/Inventory.tsx:21-23 | a search for "APP" finds "Apple" |
| Inventory.ContainsEmpty | components/Inventory.tsx:23 | every name includes the empty string |
| Inventory.FilterName | components/Inventory.tsx:24-25 | a chip compares by the category's string; "Tất cả" is the sentinel and nothing else |
| Inventory.Matches | components/Inventory.tsx:21-26 | a match needs a term no longer than the name, and a chip of another category never matches |
| Inventory.FilteredItems | components/Inventory.tsx:20-27 | an order-preserving sublist; an item is kept iff its name matches the search and the filter is the sentinel or its category; every copy of a kept record stays |
| Inventory.EmptySearchListsAll | components/Inventory.tsx:20-27 | an empty search with the sentinel lists every item |
| Inventory.SearchIgnoresCase | components/Inventory.tsx:21-23 | terms with equal lower-case forms give the same list |
| Inventory.SearchLowerCaseTerm | components/Inventory.tsx:21-23 | a term and its lower-case form give the same list |
| Inventory.IsExpired | components/Inventory.tsx:113 | a marked item has at most 0 days left on the dashboard, an unmarked one at least 0 (the instants in between are decided by MarkedExpiredButUrgent) |
| Inventory.ExpiredTierIsMarkedExpired | components/Inventory.tsx:113 | what the dashboard calls expired is marked expired |
| Inventory.MarkedExpiredButUrgent | components/Inventory.tsx:113 | an item that expired less than a day ago is already marked expired while the dashboard shows it as urgent; one expiring exactly now is not marked; with IsExpired's contract this decides the mark at every instant |
| Inventory.ChipsAreSentinelThenCategories | components/Inventory.tsx:29-37 | the chips are the sentinel followed by the six categories in the fixed order |
| GeminiService.Names | services/geminiService.ts:8 | the names of the items, position by position |
| GeminiService.NamesSnoc | services/geminiService.ts:8 | naming one more item appends its name |
| GeminiService.PriorityText | services/geminiService.ts:8 | "None" for no expiring items; otherwise starts with the first name, and a single item gives just its name |
| GeminiService.PriorityTextSnoc | services/geminiService.ts:8 | one more expiring item appends ", " and its name, so the text is all the names joined with ", " in order |
| GeminiService.PriorityTextAmbiguous | services/geminiService.ts:8 | one item named "None" gives the same text as no items |
| GeminiService.NotExpiring | services/geminiService.ts:9 | an order-preserving sublist holding exactly the items whose id is not among the expiring ids, every copy of such a record included |
| GeminiService.NotExpiringSnoc | services/geminiService.ts:9 | an appended item joins the candidates at the end exactly when its id is not expiring |
| GeminiService.SupportingItems | services/geminiService.ts:9 | the first ten candidates: at most ten, a prefix of them, ten whenever there are ten, and all of them when there are fewer; none shares an id with an expiring item |
| GeminiService.SupportingText | services/geminiService.ts:9 | empty when there are no supporting items; a single one gives just its name; otherwise starts with the first one's name |
| GeminiService.SupportingTextSnoc | services/geminiService.ts:9 | an appended expiring item, or one past the first ten candidates, leaves the text as it was; any other appends ", " and its name |
| GeminiService.LanguageName | services/geminiService.ts:11-17 | every language has a non-empty name |
| GeminiService.LanguageNameInjective | services/geminiService.ts:11-17 | distinct languages get distinct names |
| GeminiService.BuildRequest | services/geminiService.ts:8-17 | the request holds the priority text, the supporting text and the language name |
| GeminiService.ReadReply | services/geminiService.ts:76-81 | a missing or empty text gives [], a recipe array is returned as is, and a failed call or unparseable text throws |
| RecipeSuggestions.ErrorMessage | components/RecipeSuggestions.tsx:65 | a failed generator call always leaves a non-empty, so truthy, error message |
| RecipeSuggestions.ErrorMessageShared | components/RecipeSuggestions.tsx:65 | only Vietnamese has its own message: two languages share one iff both or neither is Vietnamese |
| RecipeSuggestions.ParseRecipes | components/RecipeSuggestions.tsx:41 | a cache entry parses iff it holds a recipe list |
| RecipeSuggestions.ReadCache | components/RecipeSuggestions.tsx:38-49 | a hit iff a non-empty recipe list is stored; broken iff the entry is truthy and unparseable |
| RecipeSuggestions.Refreshed | components/RecipeSuggestions.tsx:59-62 | a refresh adds or replaces only this language's cache and the date; every other key keeps its value |
| RecipeSuggestions.Fetch | components/RecipeSuggestions.tsx:33-71 | no items: no change; not forced: a cache hit sets recipes, a broken entry is removed, and storage is otherwise unchanged; forced: a non-empty list sets recipes, cache and date, an empty one only clears the error, and a throw only sets the error to the language's ErrorMessage |
| RecipeSuggestions.NonForcedIgnoresGenerator | components/RecipeSuggestions.tsx:37-51 | a non-forced fetch does not depend on the generator or the clock |
| RecipeSuggestions.FetchKeepsOtherKeys | components/RecipeSuggestions.tsx:33-71 | a fetch leaves every key except its cache key and the date as it was |
| RecipeSuggestions.FetchKeepsOtherLanguages | components/RecipeSuggestions.tsx:30-62 | a fetch in one language leaves every other language's cache as it was |
| RecipeSuggestions.FreeRefresh | components/RecipeSuggestions.tsx:97-100 | a refresh is free when no date is stored, and otherwise iff the stored date is not today |
| RecipeSuggestions.FetchAndGate | components/RecipeSuggestions.tsx:57-62 | a forced fetch that brings recipes uses up today's free refresh; any other outcome leaves the gate as it was |
| RecipeSuggestions.AdTick | components/RecipeSuggestions.tsx:84-91 | a tick at a count of at most 1 fires and sets 0; otherwise it decrements |
| RecipeSuggestions.CountdownFiresOnce | components/RecipeSuggestions.tsx:79-94 | a countdown at n fires exactly one forced fetch, on tick n |
| RecipeSuggestions.RecipePanel.constructor | components/RecipeSuggestions.tsx:21-26 | no recipes, no error, not loading, no ad, countdown 5, the AI tab |
| RecipeSuggestions.RecipePanel.FetchRecipes | components/RecipeSuggestions.tsx:33-71 | the panel's recipes, error and storage move as Fetch says; the generator is called iff forced with items; loading ends false |
| RecipeSuggestions.RecipePanel.AutoFetch | components/RecipeSuggestions.tsx:73-77 | a non-forced fetch runs iff the AI tab is shown with no recipes |
| RecipeSuggestions.RecipePanel.StartAdAndRefresh | components/RecipeSuggestions.tsx:79-82 | the ad plays from 5 and keeps the props of this moment |
| RecipeSuggestions.RecipePanel.HandleRefreshClick | components/RecipeSuggestions.tsx:96-106 | without today's date stored, a forced fetch runs at once and the ad state is untouched; with it, the ad starts and nothing else changes |
| RecipeSuggestions.RecipePanel.Tick | components/RecipeSuggestions.tsx:83-93 | each tick follows AdTick; the firing tick stops the ad and runs one forced fetch with the captured props |
| RecipeSuggestions.RecipePanel.SetSubTab | components/RecipeSuggestions.tsx:139 | selects the sub-tab |
| RecipeSuggestions.RecipePanel.DisplayList | components/RecipeSuggestions.tsx:108 | the AI recipes on the AI tab, the favourites otherwise |
| OnboardingModal.Advance | components/OnboardingModal.tsx:26-32 | before the last step the step advances by one; on the last step completion is reported and the step stays |
| OnboardingModal.CompletionsCount | components/OnboardingModal.tsx:26-32 | from step s, the first 3 - s presses only advance and every later press completes |
| OnboardingModal.FirstCompletionOnFourthPress | components/OnboardingModal.tsx:17-32 | from the first step, three presses do not complete and the fourth does |
| OnboardingModal.Onboarding.constructor | components/OnboardingModal.tsx:14 | the step starts at 0 |
| OnboardingModal.Onboarding.HandleNext | components/OnboardingModal.tsx:26-32 | follows Advance, keeps 0 <= step <= 3, and completes iff it was on step 3 |
| OnboardingModal.Onboarding.Label | components/OnboardingModal.tsx:70 | "get started" iff on the last step |
| AddFoodModal.TrimStart | components/AddFoodModal.tsx:52 | the result is a suffix; what was removed is all white space; the result does not start with white space |
| AddFoodModal.TrimEnd | components/AddFoodModal.tsx:52 | the result is a prefix; what was removed is all white space; the result does not end with white space |
| AddFoodModal.Trim | components/AddFoodModal.tsx:52 | the piece of the name between its leading and trailing white space: what precedes and what follows it is all white space, it neither starts nor ends with white space, and it is empty iff every character is white space |
| AddFoodModal.InitialForm | components/AddFoodModal.tsx:18-25 | empty name, meat and seafood, quantity "1", the first unit, the steak icon, and an expiry at a UTC midnight between six and seven days ahead |
| AddFoodModal.CategoryChoicesAreCategories | components/AddFoodModal.tsx:57-64 | the form's categories are the six category values in the fixed order |
| AddFoodModal.AddFoodForm.constructor | components/AddFoodModal.tsx:18-25 | the form starts as InitialForm |
| AddFoodModal.AddFoodForm.SetIcon | components/AddFoodModal.tsx:104 | changes only the icon |
| AddFoodModal.AddFoodForm.SetName | components/AddFoodModal.tsx:126-128 | changes only the name |
| AddFoodModal.AddFoodForm.SetQuantity | components/AddFoodModal.tsx:144-146 | changes only the quantity |
| AddFoodModal.AddFoodForm.SetUnit | components/AddFoodModal.tsx:156-158 | changes only the unit |
| AddFoodModal.AddFoodForm.SetCategory | components/AddFoodModal.tsx:178 | changes only the category |
| AddFoodModal.AddFoodForm.SetExpiryDate | components/AddFoodModal.tsx:200-202 | changes only the expiry date |
| AddFoodModal.AddFoodForm.HandleSubmit | components/AddFoodModal.tsx:50-55 | a blank name adds nothing and does not close; otherwise the untrimmed form is added and the modal closes |
| App.ReadLanguage | App.tsx:16-18 | a missing or empty entry gives English; otherwise only one of the five codes is read, as that language |
| App.ReadItems | App.tsx:21-25 | a missing or empty entry gives []; otherwise only a stored item list is read, as itself |
| App.ReadFavorites | App.tsx:27-30 | a missing or empty entry gives []; otherwise only a stored recipe list is read, as itself |
| App.Startup | App.tsx:16-37 | a page load succeeds iff the items, the favourites and the language are readable; the session holds what was read (so [] and English for missing or empty entries); onboarding shows iff its flag is not truthy |
| App.Persisted | App.tsx:39-43 | the effect writes the items, the favourites and the language code, and keeps every other key |
| App.ReloadRestores | App.tsx:16-43 | storage holding the written values reloads into exactly those values |
| App.PersistThenReload | App.tsx:39-43 | after the persistence effect, a reload gives back the written state with the onboarding flag unchanged |
| App.FetchKeepsSession | components/RecipeSuggestions.tsx:47-61 | no recipe fetch changes what a page load reads |
| App.Stamp | App.tsx:47-52 | the new record carries the given id and instant, and every form field unchanged |
| App.Unstamp | App.tsx:47 | the form fields of a record |
| App.StampUnstamp | App.tsx:48-52 | a record is its form fields stamped with its own id and instant |
| App.RemoveById | App.tsx:58 | an order-preserving sublist holding exactly the items whose id differs, every copy of each included |
| App.RemoveAbsentId | App.tsx:58 | deleting an id no item has changes nothing |
| App.Toggle | App.tsx:63-69 | the recipe's id is present afterwards iff it was absent before; a present id is filtered out entirely, keeping every other favourite, copies included, in order; an absent one is appended at the end |
| App.ToggleTwice | App.tsx:63-69 | toggling a new recipe twice restores the list exactly |
| App.FilterKeepsUniqueIds | App.tsx:66 | filtering keeps favourite ids distinct |
| App.AppendKeepsUniqueIds | App.tsx:67 | appending a recipe with a new id keeps favourite ids distinct |
| App.ToggleKeepsUniqueIds | App.tsx:63-69 | toggling keeps favourite ids distinct |
| App.Expiring | App.tsx:76-80 | an order-preserving sublist holding exactly the items expiring at or before now + 3 days, every copy included, with no lower bound |
| App.ExpiringIffNotFresh | App.tsx:76-80 | an item is expiring iff the dashboard does not show it as fresh, i.e. iff it has at most 3 days left |
| App.StaleMemoExample | App.tsx:76-80 | with the items unchanged since T, an item due at T + 4 days is not in the list of T but would be two days later |
| App.FridgeApp.constructor | App.tsx:16-43 | a successful page load followed by the persistence effect; nothing pending; the expiring memo taken at the load instant |
| App.FridgeApp.Persist | App.tsx:39-43 | storage becomes Persisted of the current state |
| App.FridgeApp.AddItem | App.tsx:47-54 | the stamped item goes first, the old items follow in order, the storage is updated, and the expiring memo is retaken now |
| App.FridgeApp.RequestDelete | App.tsx:230 | the inventory's delete only sets the pending id |
| App.FridgeApp.CancelDelete | App.tsx:333 | cancelling clears the pending id |
| App.FridgeApp.ConfirmDelete | App.tsx:56-61 | with a truthy pending id, the items with that id go, the pending id clears and the expiring memo is retaken now; otherwise nothing changes |
| App.FridgeApp.ToggleFavorite | App.tsx:63-69 | the favourites become Toggle of the old ones and are persisted |
| App.FridgeApp.CompleteOnboarding | App.tsx:71-74 | the flag is set to "true" and the onboarding hides, and a reload keeps it hidden |
| App.FridgeApp.SetLanguage | App.tsx:146 | the language changes and is persisted |
| App.FridgeApp.ExpiringItems | App.tsx:76-80 | the list handed on is Expiring of the current items at the instant they last changed |

Every `FridgeApp` method keeps `Valid`. Between events, storage holds the
current items, favourites and language, and the onboarding shows exactly
while its flag is unset. `ReloadRestores` turns that into "a reload now would
give back this session".

## Left out

- Rendering (JSX, class names, animations, translation text) and the item and favourite counts shown on screen are not modelled.
- components/ScannerModal.tsx (camera and mock scan) and components/ConfirmModal.tsx (presentational; it only forwards its callbacks) are not part of this model.
- translations.ts is not part of this model. `t.units[0]` is the `firstUnit` parameter of `AddFoodModal.InitialForm`.
- The SDK call, the prompt text and the response schema are left out. Only the inputs the prompt is built from and the reading of the reply are modelled.
- JSON is abstracted: a stored value is an item list, a recipe list, a plain string or unparseable text.
- Ids from `Math.random` and instants from `Date` are method parameters. Ids are not assumed unique, because the source does not make them so.
- Date strings are represented by the instants they denote. ISO parsing, local time zones, `toDateString` and daylight-saving changes are not modelled. The refresh date is an opaque string.
- The `setInterval` timer is modelled as the `RecipePanel.Tick` method.
- The progress-bar width of the ad overlay is left out.
- The emoji and the status colours are modelled as `Dashboard.Glyph` and `Dashboard.Tier` values, not literal strings.
- The keyword category mapping and the barcode lookup are not part of this app's code, so they are not modelled.
- The wait for the generator is not modelled. `RecipePanel.FetchRecipes` runs in one step, so no two fetches overlap.
- Dashboard.DaysLeft: uses exact integer ceiling division, not floating-point `Math.ceil`.
- App.Expiring: `setDate(getDate() + 3)` is modelled as adding exactly three days of milliseconds.
- Inventory.LowerChar: lower-cases ASCII, Latin-1 and the Vietnamese capitals only. Every other capital, including the Latin Extended-A and -B letters outside Vietnamese (Ł, Ś, Ž, İ) and other scripts, is left unchanged.
- App.ReadLanguage: accepts only the five codes. The source accepts any non-empty stored string as `lang`; the page load then fails because the header's flag lookup (`languagesInfo[lang].flag`, App.tsx:118) has no entry for it. That table and `translations[lang]` live in translations.ts, which is not part of this model.
- App.ReadItems: reads anything but an item list as unparseable. The source would accept any JSON text and fail only later, when a non-array is used as a list.
- App.ReadFavorites: reads anything but a recipe list as unparseable, for the same reason as App.ReadItems.
- RecipeSuggestions.ParseRecipes: reads anything but a recipe list as unparseable. The app writes only recipe lists under a cache key.
- App.FridgeApp.constructor: requires a successful `App.Startup`. A failing page load, where the source throws, is described by `App.Startup` returning a failure.
- RecipeSuggestions.RecipePanel.HandleRefreshClick: requires that no ad is playing, because the button is only rendered then (components/RecipeSuggestions.tsx:260).
