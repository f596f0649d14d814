/** Browser localStorage, as the app uses it: one shared key space in which each
    collection owns one key and is written and read as a whole JSON value. */
module Storage {
  import opened Types

  /** What a key holds. A key written with JSON.stringify holds the list its
      text encodes (`ItemList`, `RecipeList`). A key read without JSON.parse (the
      language, the onboarding flag, the refresh date) holds its raw `Text`, and
      the empty string is `Text("")`. `Corrupt` is non-empty text that JSON.parse
      rejects. */
  datatype Stored =
    | ItemList(items: seq<FoodItem>)
    | RecipeList(recipes: seq<Recipe>)
    | Text(text: string)
    | Corrupt

  /** JavaScript truthiness of what getItem returns: null (absent) and "" are falsy. */
  predicate Truthy(v: Option<Stored>)
  {
    v.Some? && v.value != Text("")
  }

  const ItemsKey: string := "smart_fridge_items"
  const FavoritesKey: string := "smart_fridge_favs"
  const LanguageKey: string := "lang"
  const OnboardingKey: string := "onboarding_completed"
  const DateKey: string := "smart_fridge_last_refresh_date"
  const CachePrefix: string := "smart_fridge_ai_recipes_v2_"

  /** The recipe cache key of one language. */
  function CacheKey(l: Language): (k: string)
    ensures CachePrefix <= k
    ensures |k| == |CachePrefix| + 2
    ensures k[|CachePrefix|..] == LanguageCode(l)
  {
    CachePrefix + LanguageCode(l)
  }

  /** Each language has its own cache key. */
  lemma CacheKeyInjective(a: Language, b: Language)
    ensures CacheKey(a) == CacheKey(b) <==> a == b
  {
  }

  /** The six kinds of key the app writes are pairwise distinct, so no collection
      ever overwrites another. */
  lemma KeysDisjoint(l: Language)
    ensures CacheKey(l) !in {ItemsKey, FavoritesKey, LanguageKey, OnboardingKey, DateKey}
    ensures |{ItemsKey, FavoritesKey, LanguageKey, OnboardingKey, DateKey}| == 5
  {
  }

  /** `getItem` on a map of entries: None when the key is absent. */
  function Lookup(entries: map<string, Stored>, key: string): (v: Option<Stored>)
    ensures v.Some? <==> key in entries
    ensures v.Some? ==> v.value == entries[key]
  {
    if key in entries then Some(entries[key]) else None
  }

  class LocalStorage {
    var entries: map<string, Stored>

    constructor (initial: map<string, Stored>)
      ensures entries == initial
    {
      entries := initial;
    }

    /** `getItem`. */
    function Get(key: string): (v: Option<Stored>)
      reads this
      ensures v == Lookup(entries, key)
    {
      Lookup(entries, key)
    }

    method SetItem(key: string, v: Stored)
      modifies this
      ensures entries == old(entries)[key := v]
    {
      entries := entries[key := v];
    }

    method RemoveItem(key: string)
      modifies this
      ensures entries == old(entries) - {key}
    {
      entries := entries - {key};
    }
  }
}
