/** The recipe panel (components/RecipeSuggestions.tsx): the per-language recipe
    cache, the once-a-day free refresh gate, and the five-second "ad" countdown
    that ends in one forced fetch. The awaited generator call is collapsed into
    one step whose outcome is a parameter; `today` is the day string
    (`toDateString`) of the moment of the call. */
module RecipeSuggestions {
  import opened Types
  import opened Storage
  import opened GeminiService

  datatype SubTab = Ai | Favs

  /** The props a fetch reads: `expiringItems`, `allItems` and `lang`. */
  datatype Props = Props(expiringItems: seq<FoodItem>, allItems: seq<FoodItem>, lang: Language)

  /** The message a failed generator call leaves in `error`: Vietnamese for "vi",
      English for every other language. It is never empty, so a failure always
      leaves a truthy error. */
  function ErrorMessage(l: Language): (m: string)
    ensures m != ""
  {
    if l == Vi then "Lỗi kết nối AI." else "AI Connection Error."
  }

  /** Only Vietnamese has its own message: two languages share a message exactly
      when both or neither of them is Vietnamese. */
  lemma ErrorMessageShared(a: Language, b: Language)
    ensures ErrorMessage(a) == ErrorMessage(b) <==> (a == Vi <==> b == Vi)
  {
  }

  /** `JSON.parse` of a cache entry: the app only ever writes recipe arrays under
      a cache key, so anything else counts as unparseable. */
  function ParseRecipes(v: Stored): (r: Option<seq<Recipe>>)
    ensures r.Some? <==> v.RecipeList?
    ensures r.Some? ==> r.value == v.recipes
  {
    if v.RecipeList? then Some(v.recipes) else None
  }

  /** What a non-forced fetch finds in the cache. */
  datatype CacheRead = Hit(recipes: seq<Recipe>) | Miss | Broken

  function ReadCache(saved: Option<Stored>): (r: CacheRead)
    ensures r.Hit? <==> saved.Some? && saved.value.RecipeList? && saved.value.recipes != []
    ensures r.Hit? ==> r.recipes == saved.value.recipes
    ensures r == Broken <==> Truthy(saved) && !saved.value.RecipeList?
  {
    if !Truthy(saved) then Miss
    else match ParseRecipes(saved.value)
      case Some(rs) => if |rs| > 0 then Hit(rs) else Miss
      case None => Broken
  }

  /** What a fetch may change: the shown recipes, the error and the storage. */
  datatype FetchState = FetchState(recipes: seq<Recipe>, error: Option<string>, entries: map<string, Stored>)

  /** A fetch calls the generator exactly when it is forced and there are items. */
  predicate Requests(force: bool, props: Props)
  {
    force && |props.allItems| > 0
  }

  /** The storage after a successful forced fetch: this language's cache and the
      last-refresh date. */
  function Refreshed(entries: map<string, Stored>, l: Language, rs: seq<Recipe>, today: string): (e: map<string, Stored>)
    ensures e.Keys == entries.Keys + {CacheKey(l), DateKey}
    ensures e[CacheKey(l)] == RecipeList(rs) && e[DateKey] == Text(today)
    ensures forall k :: k in entries && k != CacheKey(l) && k != DateKey ==> e[k] == entries[k]
  {
    entries[CacheKey(l) := RecipeList(rs)][DateKey := Text(today)]
  }

  /** `fetchRecipes(force)`, from the state before the call to the state after it. */
  function Fetch(force: bool, props: Props, today: string, outcome: Outcome, s: FetchState): (t: FetchState)
    // no items: nothing happens, forced or not
    ensures |props.allItems| == 0 ==> t == s
    // not forced: a non-empty cached list is shown, a broken entry is removed, nothing else
    ensures !force ==> t.error == s.error
    ensures !force ==> t.recipes == (if ReadCache(Lookup(s.entries, CacheKey(props.lang))).Hit? && |props.allItems| > 0
                                     then ReadCache(Lookup(s.entries, CacheKey(props.lang))).recipes else s.recipes)
    ensures !force && |props.allItems| > 0 ==>
              t.entries == if ReadCache(Lookup(s.entries, CacheKey(props.lang))).Broken?
                           then s.entries - {CacheKey(props.lang)} else s.entries
    // forced: only a non-empty list changes recipes, cache and date; a throw only sets the error
    ensures Requests(force, props) && outcome.Returned? && outcome.recipes != [] ==>
              t == FetchState(outcome.recipes, None, Refreshed(s.entries, props.lang, outcome.recipes, today))
    ensures Requests(force, props) && outcome == Returned([]) ==> t == s.(error := None)
    ensures Requests(force, props) && outcome == Threw ==> t == s.(error := Some(ErrorMessage(props.lang)))
  {
    var key := CacheKey(props.lang);
    if |props.allItems| == 0 then s
    else if !force then
      match ReadCache(Lookup(s.entries, key))
      case Hit(rs) => s.(recipes := rs)
      case Miss => s
      case Broken => s.(entries := s.entries - {key})
    else
      match outcome
      case Returned(rs) =>
        if |rs| > 0 then FetchState(rs, None, Refreshed(s.entries, props.lang, rs, today))
        else s.(error := None)
      case Threw => s.(error := Some(ErrorMessage(props.lang)))
  }

  /** A non-forced fetch does not depend on the generator or the clock: it never
      calls them. */
  lemma NonForcedIgnoresGenerator(props: Props, t1: string, o1: Outcome, t2: string, o2: Outcome, s: FetchState)
    ensures Fetch(false, props, t1, o1, s) == Fetch(false, props, t2, o2, s)
  {
  }

  /** No fetch touches a key other than its own language's cache and the date:
      another language's cache, the items, the favourites, the language and the
      onboarding flag keep their entries. */
  lemma {:induction false} FetchKeepsOtherKeys(force: bool, props: Props, today: string, outcome: Outcome, s: FetchState, k: string)
    requires k != CacheKey(props.lang) && k != DateKey
    ensures var t := Fetch(force, props, today, outcome, s);
      (k in t.entries <==> k in s.entries) && (k in s.entries ==> t.entries[k] == s.entries[k])
  {
  }

  /** In particular a fetch in one language leaves every other language's cache as it was. */
  lemma {:induction false} FetchKeepsOtherLanguages(force: bool, props: Props, today: string, outcome: Outcome, s: FetchState, other: Language)
    requires other != props.lang
    ensures var t := Fetch(force, props, today, outcome, s);
      Lookup(t.entries, CacheKey(other)) == Lookup(s.entries, CacheKey(other))
  {
    CacheKeyInjective(other, props.lang);
    KeysDisjoint(other);
    FetchKeepsOtherKeys(force, props, today, outcome, s, CacheKey(other));
  }

  /** `lastRefresh !== today`: a free refresh is available unless today's date is stored. */
  predicate FreeRefresh(entries: map<string, Stored>, today: string)
    ensures DateKey !in entries ==> FreeRefresh(entries, today)
    ensures DateKey in entries ==> (FreeRefresh(entries, today) <==> entries[DateKey] != Text(today))
  {
    Lookup(entries, DateKey) != Some(Text(today))
  }

  /** A forced fetch that brings recipes uses up the day's free refresh; one that
      fails or brings nothing leaves the gate as it was. */
  lemma {:induction false} FetchAndGate(props: Props, today: string, outcome: Outcome, s: FetchState)
    requires |props.allItems| > 0
    ensures var t := Fetch(true, props, today, outcome, s);
      if outcome.Returned? && outcome.recipes != [] then !FreeRefresh(t.entries, today)
      else FreeRefresh(t.entries, today) == FreeRefresh(s.entries, today)
  {
  }

  /** One tick of the ad interval: the next countdown value and whether this tick
      stops the ad and fires the forced fetch. */
  function AdTick(count: int): (r: (int, bool))
    ensures r.1 <==> count <= 1
    ensures r.1 ==> r.0 == 0
    ensures !r.1 ==> r.0 == count - 1
  {
    if count <= 1 then (0, true) else (count - 1, false)
  }

  /** How many forced fetches `ticks` ticks of a running countdown at `count` fire;
      the interval is cleared when it fires, so later ticks do nothing. */
  function FiresWithin(count: int, ticks: nat): nat
  {
    if ticks == 0 then 0
    else if AdTick(count).1 then 1
    else FiresWithin(AdTick(count).0, ticks - 1)
  }

  /** From a countdown at `count` >= 1, exactly one fetch fires, on tick `count`:
      so the ad started at 5 fires once, after five ticks. */
  lemma {:induction false} CountdownFiresOnce(count: int, ticks: nat)
    requires count >= 1
    ensures FiresWithin(count, ticks) == if ticks >= count then 1 else 0
  {
    if ticks > 0 && count > 1 {
      CountdownFiresOnce(count - 1, ticks - 1);
    }
  }

  class RecipePanel {
    var recipes: seq<Recipe>
    var loading: bool
    var error: Option<string>
    var adPlaying: bool
    var adCountdown: int
    var activeSubTab: SubTab
    /** The props the interval callback closed over when the ad started. */
    var adProps: Props
    const storage: LocalStorage

    /** The interval runs exactly while `adPlaying`; its countdown stays in 1..5
        meanwhile. Fetches are atomic here, so `loading` is false between steps. */
    ghost predicate Valid()
      reads this
    {
      (adPlaying ==> 1 <= adCountdown <= 5) && !loading
    }

    function State(): FetchState
      reads this, storage
    {
      FetchState(recipes, error, storage.entries)
    }

    constructor (storage: LocalStorage, props: Props)
      ensures Valid()
      ensures this.storage == storage
      ensures recipes == [] && error == None && !loading
      ensures !adPlaying && adCountdown == 5 && activeSubTab == Ai
    {
      this.storage := storage;
      recipes := [];
      loading := false;
      error := None;
      adPlaying := false;
      adCountdown := 5;
      activeSubTab := Ai;
      adProps := props;
    }

    /** `fetchRecipes(force)`; `requested` says whether the generator was called,
        and `outcome` is what it gave. */
    method FetchRecipes(force: bool, props: Props, today: string, outcome: Outcome) returns (requested: bool)
      requires Valid()
      modifies this`recipes, this`loading, this`error, storage
      ensures Valid()
      ensures requested == Requests(force, props)
      ensures State() == Fetch(force, props, today, outcome, old(State()))
    {
      requested := false;
      if |props.allItems| == 0 {
        return;
      }
      var key := CacheKey(props.lang);
      if !force {
        var saved := storage.Get(key);
        if Truthy(saved) {
          var parsed := ParseRecipes(saved.value);
          if parsed.Some? {
            if |parsed.value| > 0 {
              recipes := parsed.value;
              return;
            }
          } else {
            storage.RemoveItem(key);
          }
        }
        return;
      }
      requested := true;
      loading := true;
      error := None;
      match outcome {
        case Returned(rs) =>
          if |rs| > 0 {
            recipes := rs;
            storage.SetItem(key, RecipeList(rs));
            storage.SetItem(DateKey, Text(today));
          }
        case Threw =>
          error := Some(ErrorMessage(props.lang));
      }
      loading := false;
    }

    /** The effect on mount and on change: an empty AI tab loads the cache. */
    method AutoFetch(props: Props)
      requires Valid()
      modifies this`recipes, this`loading, this`error, storage
      ensures Valid()
      ensures activeSubTab == Ai && old(recipes) == [] ==> State() == Fetch(false, props, "", Threw, old(State()))
      ensures !(activeSubTab == Ai && old(recipes) == []) ==> State() == old(State())
    {
      if activeSubTab == Ai && |recipes| == 0 {
        var _ := FetchRecipes(false, props, "", Threw);
      }
    }

    /** `startAdAndRefresh`: the ad plays from 5 and the interval keeps the props
        of this moment for its eventual fetch. */
    method StartAdAndRefresh(props: Props)
      requires Valid()
      modifies this`adPlaying, this`adCountdown, this`adProps
      ensures Valid()
      ensures adPlaying && adCountdown == 5 && adProps == props
    {
      adPlaying := true;
      adCountdown := 5;
      adProps := props;
    }

    /** `handleRefreshClick`. The button is only rendered while no ad plays. */
    method HandleRefreshClick(props: Props, today: string, outcome: Outcome) returns (requested: bool)
      requires Valid() && !adPlaying
      modifies this, storage
      ensures Valid()
      ensures FreeRefresh(old(storage.entries), today) ==>
                !adPlaying && adCountdown == old(adCountdown) && adProps == old(adProps) &&
                requested == Requests(true, props) &&
                State() == Fetch(true, props, today, outcome, old(State()))
      ensures !FreeRefresh(old(storage.entries), today) ==>
                adPlaying && adCountdown == 5 && adProps == props && !requested &&
                State() == old(State())
      ensures activeSubTab == old(activeSubTab)
    {
      var lastRefresh := storage.Get(DateKey);
      if lastRefresh != Some(Text(today)) {
        requested := FetchRecipes(true, props, today, outcome);
        return;
      }
      StartAdAndRefresh(props);
      requested := false;
    }

    /** One tick of the ad interval. On the tick where the countdown is at most 1
        the ad stops, the countdown shows 0 and one forced fetch runs with the
        props captured when the ad started. */
    method Tick(today: string, outcome: Outcome) returns (requested: bool)
      requires Valid() && adPlaying
      modifies this, storage
      ensures Valid()
      ensures adCountdown == AdTick(old(adCountdown)).0
      ensures adPlaying <==> !AdTick(old(adCountdown)).1
      ensures AdTick(old(adCountdown)).1 ==>
                requested == Requests(true, old(adProps)) &&
                State() == Fetch(true, old(adProps), today, outcome, old(State()))
      ensures !AdTick(old(adCountdown)).1 ==> !requested && State() == old(State())
      ensures adProps == old(adProps) && activeSubTab == old(activeSubTab)
    {
      if adCountdown <= 1 {
        adPlaying := false;
        requested := FetchRecipes(true, adProps, today, outcome);
        adCountdown := 0;
      } else {
        adCountdown := adCountdown - 1;
        requested := false;
      }
    }

    method SetSubTab(tab: SubTab)
      modifies this`activeSubTab
      ensures activeSubTab == tab
    {
      activeSubTab := tab;
    }

    /** `displayList`: the AI recipes on the AI tab, the favourites otherwise. */
    function DisplayList(favorites: seq<Recipe>): (r: seq<Recipe>)
      reads this
      ensures r == recipes || r == favorites
      ensures activeSubTab == Ai ==> r == recipes
      ensures activeSubTab == Favs ==> r == favorites
    {
      if activeSubTab == Ai then recipes else favorites
    }
  }
}
