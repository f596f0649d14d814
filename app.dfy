/** The app shell (App.tsx): the state it loads from localStorage at start-up and
    writes back after every change, adding and deleting items, toggling
    favourites, the onboarding flag, the language, and the expiring list it hands
    to the dashboard and the recipe panel. Ids and clocks are parameters. */
module App {
  import opened Types
  import opened Storage
  import Seqs
  import Dashboard
  import RecipeSuggestions
  import GeminiService

  /** What a page load reads back from storage. */
  datatype Session = Session(lang: Language, items: seq<FoodItem>, favorites: seq<Recipe>, showOnboarding: bool)

  /** Why a page load fails: JSON.parse throws (or yields something that is not a
      list) for the items or the favourites, or the stored language is not one of
      the five and the header cannot find its flag. */
  datatype StartupError = BadItems | BadFavorites | BadLanguage

  /** The `lang` initialiser: a missing or empty entry means English. */
  function ReadLanguage(v: Option<Stored>): (r: Option<Language>)
    ensures !Truthy(v) ==> r == Some(En)
    ensures Truthy(v) ==> (r.Some? <==> v.value.Text? && LanguageOfCode(v.value.text).Some?)
    ensures Truthy(v) && r.Some? ==> Text(LanguageCode(r.value)) == v.value
  {
    if !Truthy(v) then Some(En)
    else if v.value.Text? then LanguageOfCode(v.value.text)
    else None
  }

  /** The `items` initialiser: a missing or empty entry means no items; the app
      only ever writes item lists under this key, so anything else is unparseable. */
  function ReadItems(v: Option<Stored>): (r: Option<seq<FoodItem>>)
    ensures !Truthy(v) ==> r == Some([])
    ensures Truthy(v) ==> (r.Some? <==> v.value.ItemList?)
    ensures Truthy(v) && r.Some? ==> r.value == v.value.items
  {
    if !Truthy(v) then Some([])
    else if v.value.ItemList? then Some(v.value.items)
    else None
  }

  /** The `favorites` initialiser, read as the recipe cache is read. */
  function ReadFavorites(v: Option<Stored>): (r: Option<seq<Recipe>>)
    ensures !Truthy(v) ==> r == Some([])
    ensures Truthy(v) ==> (r.Some? <==> v.value.RecipeList?)
    ensures Truthy(v) && r.Some? ==> r.value == v.value.recipes
  {
    if !Truthy(v) then Some([]) else RecipeSuggestions.ParseRecipes(v.value)
  }

  /** A page load: the initialisers in the order they run, then the render that
      looks the language up. The onboarding shows unless its flag is truthy. */
  function Startup(entries: map<string, Stored>): (r: Result<Session, StartupError>)
    ensures r.Success? <==>
              ReadItems(Lookup(entries, ItemsKey)).Some? &&
              ReadFavorites(Lookup(entries, FavoritesKey)).Some? &&
              ReadLanguage(Lookup(entries, LanguageKey)).Some?
    ensures r.Success? ==> r.value.showOnboarding == !Truthy(Lookup(entries, OnboardingKey))
    ensures r == Failure(BadItems) <==> ReadItems(Lookup(entries, ItemsKey)).None?
    ensures r.Success? ==>
              r.value.lang == ReadLanguage(Lookup(entries, LanguageKey)).value &&
              r.value.items == ReadItems(Lookup(entries, ItemsKey)).value &&
              r.value.favorites == ReadFavorites(Lookup(entries, FavoritesKey)).value
  {
    var items := ReadItems(Lookup(entries, ItemsKey));
    var favorites := ReadFavorites(Lookup(entries, FavoritesKey));
    var lang := ReadLanguage(Lookup(entries, LanguageKey));
    if items.None? then Failure(BadItems)
    else if favorites.None? then Failure(BadFavorites)
    else if lang.None? then Failure(BadLanguage)
    else Success(Session(lang.value, items.value, favorites.value, !Truthy(Lookup(entries, OnboardingKey))))
  }

  /** The persistence effect: items, favourites and language written over `entries`. */
  function Persisted(entries: map<string, Stored>, items: seq<FoodItem>, favorites: seq<Recipe>, lang: Language): (e: map<string, Stored>)
    ensures e.Keys == entries.Keys + {ItemsKey, FavoritesKey, LanguageKey}
    ensures e[ItemsKey] == ItemList(items) && e[FavoritesKey] == RecipeList(favorites)
    ensures e[LanguageKey] == Text(LanguageCode(lang))
    ensures forall k :: k in entries && k !in {ItemsKey, FavoritesKey, LanguageKey} ==> e[k] == entries[k]
  {
    entries[ItemsKey := ItemList(items)][FavoritesKey := RecipeList(favorites)][LanguageKey := Text(LanguageCode(lang))]
  }

  /** Storage whose three app keys hold these values reloads into exactly them. */
  lemma ReloadRestores(entries: map<string, Stored>, items: seq<FoodItem>, favorites: seq<Recipe>, lang: Language)
    requires Lookup(entries, ItemsKey) == Some(ItemList(items))
    requires Lookup(entries, FavoritesKey) == Some(RecipeList(favorites))
    requires Lookup(entries, LanguageKey) == Some(Text(LanguageCode(lang)))
    ensures Startup(entries) == Success(Session(lang, items, favorites, !Truthy(Lookup(entries, OnboardingKey))))
  {
  }

  /** Whatever the storage held before, after the persistence effect a reload
      gives back the state that was written, with the onboarding flag untouched. */
  lemma PersistThenReload(entries: map<string, Stored>, items: seq<FoodItem>, favorites: seq<Recipe>, lang: Language)
    ensures var e := Persisted(entries, items, favorites, lang);
      Startup(e) == Success(Session(lang, items, favorites, !Truthy(Lookup(entries, OnboardingKey))))
  {
  }

  /** A recipe fetch, forced or not, never changes what a page load reads: it
      only writes its own cache key and the refresh date. */
  lemma FetchKeepsSession(force: bool, props: RecipeSuggestions.Props, today: string,
                                             outcome: GeminiService.Outcome, s: RecipeSuggestions.FetchState)
    ensures Startup(RecipeSuggestions.Fetch(force, props, today, outcome, s).entries) == Startup(s.entries)
  {
  }

  /** `addItem`'s new record: the form's fields plus the generated id and the
      creation instant. */
  function Stamp(item: NewItem, id: string, now: int): (f: FoodItem)
    ensures f.id == id && f.addedAt == now
    ensures Unstamp(f) == item
  {
    FoodItem(id, item.name, item.category, item.expiryDate, item.quantity, item.unit, now, item.icon)
  }

  /** The fields of a record other than its id and creation instant. */
  function Unstamp(f: FoodItem): (item: NewItem)
    ensures item.name == f.name && item.category == f.category && item.expiryDate == f.expiryDate
    ensures item.quantity == f.quantity && item.unit == f.unit && item.icon == f.icon
  {
    NewItem(f.name, f.category, f.expiryDate, f.quantity, f.unit, f.icon)
  }

  /** A record is its form fields stamped with its own id and instant. */
  lemma StampUnstamp(f: FoodItem)
    ensures Stamp(Unstamp(f), f.id, f.addedAt) == f
  {
  }

  /** `prev.filter(item => item.id !== id)`. */
  function RemoveById(items: seq<FoodItem>, id: string): (r: seq<FoodItem>)
    ensures Seqs.SublistOf(r, items)
    ensures forall x :: x in r <==> x in items && x.id != id
    ensures forall x :: multiset(r)[x] == if x.id != id then multiset(items)[x] else 0
  {
    Seqs.Filter(items, (x: FoodItem) => x.id != id)
  }

  /** Deleting an id no item carries changes nothing. */
  lemma {:induction false} RemoveAbsentId(items: seq<FoodItem>, id: string)
    requires forall x :: x in items ==> x.id != id
    ensures RemoveById(items, id) == items
  {
    Seqs.FilterAll(items, (x: FoodItem) => x.id != id);
  }

  /** Some element of `favorites` has this id (`prev.find(f => f.id === id)`). */
  predicate HasId(favorites: seq<Recipe>, id: string)
  {
    exists f :: f in favorites && f.id == id
  }

  /** `toggleFavorite`: a recipe whose id is already a favourite is removed, with
      every favourite of that id; otherwise it is appended at the end. */
  function Toggle(favorites: seq<Recipe>, recipe: Recipe): (r: seq<Recipe>)
    ensures HasId(r, recipe.id) <==> !HasId(favorites, recipe.id)
    ensures HasId(favorites, recipe.id) ==> forall f :: f in r <==> f in favorites && f.id != recipe.id
    ensures HasId(favorites, recipe.id) ==>
              Seqs.SublistOf(r, favorites) &&
              forall f :: multiset(r)[f] == if f.id != recipe.id then multiset(favorites)[f] else 0
    ensures !HasId(favorites, recipe.id) ==> r == favorites + [recipe]
  {
    if HasId(favorites, recipe.id) then Seqs.Filter(favorites, (f: Recipe) => f.id != recipe.id)
    else favorites + [recipe]
  }

  /** Toggling a new recipe twice restores the favourites exactly. */
  lemma {:induction false} ToggleTwice(favorites: seq<Recipe>, recipe: Recipe)
    requires !HasId(favorites, recipe.id)
    ensures Toggle(Toggle(favorites, recipe), recipe) == favorites
  {
    var p := (f: Recipe) => f.id != recipe.id;
    assert recipe in favorites + [recipe];
    Seqs.FilterAppend(favorites, [recipe], p);
    Seqs.FilterAll(favorites, p);
    assert Seqs.Filter([recipe], p) == [];
  }

  /** No two favourites share an id: the first id occurs nowhere later, and so
      on down the list. */
  predicate UniqueIds(favorites: seq<Recipe>)
  {
    favorites == [] || (!HasId(favorites[1..], favorites[0].id) && UniqueIds(favorites[1..]))
  }

  lemma {:induction false} FilterKeepsUniqueIds(favorites: seq<Recipe>, p: Recipe -> bool)
    requires UniqueIds(favorites)
    ensures UniqueIds(Seqs.Filter(favorites, p))
  {
    if favorites != [] {
      var rest := Seqs.Filter(favorites[1..], p);
      FilterKeepsUniqueIds(favorites[1..], p);
      if p(favorites[0]) {
        var r := [favorites[0]] + rest;
        assert r[1..] == rest;
      }
    }
  }

  /** Appending a recipe whose id is new keeps ids distinct. */
  lemma {:induction false} AppendKeepsUniqueIds(favorites: seq<Recipe>, recipe: Recipe)
    requires UniqueIds(favorites) && !HasId(favorites, recipe.id)
    ensures UniqueIds(favorites + [recipe])
  {
    if favorites == [] {
      assert [recipe][1..] == [];
    } else {
      var r := favorites + [recipe];
      assert r[1..] == favorites[1..] + [recipe];
      assert favorites[0] in favorites;
      AppendKeepsUniqueIds(favorites[1..], recipe);
    }
  }

  /** Toggling keeps favourites free of duplicate ids. */
  lemma {:induction false} ToggleKeepsUniqueIds(favorites: seq<Recipe>, recipe: Recipe)
    requires UniqueIds(favorites)
    ensures UniqueIds(Toggle(favorites, recipe))
  {
    if HasId(favorites, recipe.id) {
      FilterKeepsUniqueIds(favorites, (f: Recipe) => f.id != recipe.id);
    } else {
      AppendKeepsUniqueIds(favorites, recipe);
    }
  }

  /** `expiringItems`: the items whose expiry is at most three days from now. */
  function Expiring(items: seq<FoodItem>, now: int): (r: seq<FoodItem>)
    ensures Seqs.SublistOf(r, items)
    ensures forall x :: x in r <==> x in items && x.expiryDate <= now + 3 * DayMs
    ensures forall x :: multiset(r)[x] == if x.expiryDate <= now + 3 * DayMs then multiset(items)[x] else 0
  {
    Seqs.Filter(items, (x: FoodItem) => x.expiryDate <= now + 3 * DayMs)
  }

  /** The expiring list is exactly the items the dashboard does not show as fresh,
      that is those with at most three days left. */
  lemma ExpiringIffNotFresh(items: seq<FoodItem>, now: int, x: FoodItem)
    ensures x in Expiring(items, now) <==> x in items && Dashboard.ItemTier(x, now) != Dashboard.Fresh
    ensures x in Expiring(items, now) <==> x in items && Dashboard.DaysLeft(x.expiryDate, now) <= 3
  {
  }

  /** The memo is stale between changes: with the items unchanged since T, an item
      due four days after T is not in the list computed at T, though two days
      later it is within three days. */
  lemma StaleMemoExample(item: FoodItem, t: int)
    requires item.expiryDate == t + 4 * DayMs
    ensures Expiring([item], t) == []
    ensures Expiring([item], t + 2 * DayMs) == [item]
  {
    Seqs.FilterSingleton(item, (x: FoodItem) => x.expiryDate <= t + 3 * DayMs);
    Seqs.FilterSingleton(item, (x: FoodItem) => x.expiryDate <= t + 2 * DayMs + 3 * DayMs);
  }

  class FridgeApp {
    var items: seq<FoodItem>
    var favorites: seq<Recipe>
    var lang: Language
    /** The id awaiting confirmation in the delete dialog. */
    var confirmDeleteId: Option<string>
    var showOnboarding: bool
    /** The instant `expiringItems` was last computed. The memo depends on `items`
        only, so the clock is read again only when the items change. */
    var expiringAt: int
    const storage: LocalStorage

    /** Between events the persistence effect has run: storage holds the current
        items, favourites and language, and the onboarding shows exactly while its
        flag is unset, so a reload would give back this session. */
    ghost predicate Valid()
      reads this, storage
    {
      && Lookup(storage.entries, ItemsKey) == Some(ItemList(items))
      && Lookup(storage.entries, FavoritesKey) == Some(RecipeList(favorites))
      && Lookup(storage.entries, LanguageKey) == Some(Text(LanguageCode(lang)))
      && showOnboarding == !Truthy(Lookup(storage.entries, OnboardingKey))
    }

    /** A page load over `initial` that succeeds at instant `now`, followed by the
        first run of the persistence effect. */
    constructor (initial: map<string, Stored>, now: int)
      requires Startup(initial).Success?
      ensures Valid()
      ensures fresh(storage)
      ensures Session(lang, items, favorites, showOnboarding) == Startup(initial).value
      ensures confirmDeleteId == None && expiringAt == now
      ensures storage.entries == Persisted(initial, items, favorites, lang)
    {
      var session := Startup(initial).value;
      var store := new LocalStorage(initial);
      storage := store;
      items := session.items;
      favorites := session.favorites;
      lang := session.lang;
      confirmDeleteId := None;
      showOnboarding := session.showOnboarding;
      expiringAt := now;
      new;
      Persist();
    }

    /** The persistence effect. */
    method Persist()
      modifies storage
      ensures storage.entries == Persisted(old(storage.entries), items, favorites, lang)
    {
      storage.SetItem(ItemsKey, ItemList(items));
      storage.SetItem(FavoritesKey, RecipeList(favorites));
      storage.SetItem(LanguageKey, Text(LanguageCode(lang)));
    }

    /** `addItem`: the new record, with the given id and instant, goes first; the
        new list makes the expiring memo read the clock again. */
    method AddItem(item: NewItem, id: string, now: int)
      requires Valid()
      modifies this`items, this`expiringAt, storage
      ensures Valid()
      ensures items == [Stamp(item, id, now)] + old(items)
      ensures expiringAt == now
      ensures storage.entries == Persisted(old(storage.entries), items, favorites, lang)
    {
      items := [Stamp(item, id, now)] + items;
      expiringAt := now;
      Persist();
    }

    /** The inventory's delete button: it only opens the confirmation. */
    method RequestDelete(id: string)
      modifies this`confirmDeleteId
      ensures confirmDeleteId == Some(id)
    {
      confirmDeleteId := Some(id);
    }

    /** The dialog's cancel button. */
    method CancelDelete()
      modifies this`confirmDeleteId
      ensures confirmDeleteId == None
    {
      confirmDeleteId := None;
    }

    /** `handleConfirmDelete`: with a truthy pending id, every item with that id
        goes and the dialog closes; otherwise nothing happens. The filtered list is
        a new list even when nothing was removed, so the expiring memo reads the
        clock (`now`) again. */
    method ConfirmDelete(now: int)
      requires Valid()
      modifies this`items, this`confirmDeleteId, this`expiringAt, storage
      ensures Valid()
      ensures old(confirmDeleteId).Some? && old(confirmDeleteId).value != "" ==>
                items == RemoveById(old(items), old(confirmDeleteId).value) &&
                confirmDeleteId == None && expiringAt == now &&
                storage.entries == Persisted(old(storage.entries), items, favorites, lang)
      ensures !(old(confirmDeleteId).Some? && old(confirmDeleteId).value != "") ==>
                items == old(items) && confirmDeleteId == old(confirmDeleteId) &&
                expiringAt == old(expiringAt) && storage.entries == old(storage.entries)
    {
      if confirmDeleteId.Some? && confirmDeleteId.value != "" {
        items := RemoveById(items, confirmDeleteId.value);
        confirmDeleteId := None;
        expiringAt := now;
        Persist();
      }
    }

    /** `toggleFavorite`. */
    method ToggleFavorite(recipe: Recipe)
      requires Valid()
      modifies this`favorites, storage
      ensures Valid()
      ensures favorites == Toggle(old(favorites), recipe)
      ensures storage.entries == Persisted(old(storage.entries), items, favorites, lang)
    {
      favorites := Toggle(favorites, recipe);
      Persist();
    }

    /** `handleOnboardingComplete`. */
    method CompleteOnboarding()
      requires Valid()
      modifies this`showOnboarding, storage
      ensures Valid()
      ensures !showOnboarding
      ensures storage.entries == old(storage.entries)[OnboardingKey := Text("true")]
    {
      storage.SetItem(OnboardingKey, Text("true"));
      showOnboarding := false;
    }

    /** A language menu entry. */
    method SetLanguage(l: Language)
      requires Valid()
      modifies this`lang, storage
      ensures Valid()
      ensures lang == l
      ensures storage.entries == Persisted(old(storage.entries), items, favorites, lang)
    {
      lang := l;
      Persist();
    }

    /** The memoised list handed to the dashboard and the recipe panel: computed
        at the instant the items last changed, not at the current render. */
    function ExpiringItems(): (r: seq<FoodItem>)
      reads this
      ensures r == Expiring(items, expiringAt)
    {
      Expiring(items, expiringAt)
    }
  }
}
