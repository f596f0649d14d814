/** The inventory screen (components/Inventory.tsx): search by name, filter by
    category, the expired mark and the category chips. The search term and the
    selected category are set only by UI events, so they are parameters here. */
module Inventory {
  import opened Types
  import Seqs
  import Dashboard

  /** `toLowerCase` on one character, for the letters a Vietnamese or English
      name uses: ASCII, Latin-1, the Latin Extended-A and -B letters of
      Vietnamese (Ă Đ Ĩ Ũ Ơ Ư) and the Latin Extended Additional block U+1EA0..U+1EF9,
      where each capital is followed by its small letter. */
  function LowerChar(c: char): (d: char)
    ensures IsUpper(c) ==> d != c
    ensures !IsUpper(c) ==> d == c
    ensures !IsUpper(d)
  {
    if 'A' <= c <= 'Z' || ('À' <= c <= 'Þ' && c != '×') then
      (c as int + 32) as char
    else if c == 'Ă' || c == 'Đ' || c == 'Ĩ' || c == 'Ũ' || c == 'Ơ' || c == 'Ư' then
      (c as int + 1) as char
    else if 'Ạ' <= c <= 'ỹ' && (c as int) % 2 == 0 then
      (c as int + 1) as char
    else c
  }

  /** Every small letter of the covered ranges is the image of its capital, so a
      name and a term that differ only in the case of these letters meet after
      lower-casing. */
  lemma LowerCharInverse(c: char)
    ensures 'a' <= c <= 'z' ==> LowerChar((c as int - 32) as char) == c
    ensures 'à' <= c <= 'þ' && c != '÷' ==> LowerChar((c as int - 32) as char) == c
    ensures c == 'ă' || c == 'đ' || c == 'ĩ' || c == 'ũ' || c == 'ơ' || c == 'ư' ==>
              LowerChar((c as int - 1) as char) == c
    ensures 'ạ' <= c <= 'ỹ' && (c as int) % 2 == 1 ==> LowerChar((c as int - 1) as char) == c
  {
  }

  /** The capitals LowerChar maps. */
  predicate IsUpper(c: char)
  {
    || 'A' <= c <= 'Z'
    || ('À' <= c <= 'Þ' && c != '×')
    || c == 'Ă' || c == 'Đ' || c == 'Ĩ' || c == 'Ũ' || c == 'Ơ' || c == 'Ư'
    || ('Ạ' <= c <= 'ỹ' && (c as int) % 2 == 0)
  }

  /** `s.toLowerCase()`. */
  function Lower(s: string): (r: string)
    ensures |r| == |s|
    ensures forall i :: 0 <= i < |s| ==> r[i] == LowerChar(s[i])
  {
    if s == [] then [] else [LowerChar(s[0])] + Lower(s[1..])
  }

  /** "Apple" and "apple" lower-case alike, and "THỊT BÒ" lower-cases to "thịt bò". */
  lemma LowerExamples()
    ensures Lower("Apple") == Lower("apple") == "apple"
    ensures Lower("THỊT BÒ") == "thịt bò"
  {
  }

  /** A search for "APP" finds "Apple". */
  lemma SearchIgnoresCaseExample()
    ensures Contains(Lower("Apple"), Lower("APP"))
  {
    assert Lower("Apple") == "apple";
    assert Lower("APP") == "app";
    assert "apple"[0..3] == "app";
    assert OccursAt("apple", "app", 0);
  }

  /** Lower-casing twice is lower-casing once. */
  lemma LowerIdempotent(s: string)
    ensures Lower(Lower(s)) == Lower(s)
  {
  }

  /** `needle` occurs in `hay` starting at index `i`. */
  predicate OccursAt(hay: string, needle: string, i: nat)
  {
    i + |needle| <= |hay| && hay[i..i + |needle|] == needle
  }

  /** `hay.includes(needle)`. */
  predicate Contains(hay: string, needle: string)
  {
    exists i: nat | i <= |hay| :: OccursAt(hay, needle, i)
  }

  /** Every string contains the empty string. */
  lemma ContainsEmpty(hay: string)
    ensures Contains(hay, "")
  {
    assert OccursAt(hay, "", 0);
  }

  /** The category filter: the "Tất cả" (all) sentinel or one category. */
  datatype CategoryFilter = AllCategories | Only(category: Category)

  /** The label of a filter chip, as the source compares it. */
  function FilterName(f: CategoryFilter): (s: string)
    ensures f.Only? ==> s == CategoryName(f.category)
    ensures s == "Tất cả" <==> f == AllCategories
  {
    match f
    case AllCategories => "Tất cả"
    case Only(c) => CategoryName(c)
  }

  /** The `filteredItems` predicate: the lower-cased name contains the lower-cased
      term, and the filter is the sentinel or equals the item's category. */
  predicate Matches(item: FoodItem, term: string, filter: CategoryFilter)
    ensures Matches(item, term, filter) ==> |term| <= |item.name|
    ensures filter.Only? && filter.category != item.category ==> !Matches(item, term, filter)
  {
    Contains(Lower(item.name), Lower(term)) && (filter == AllCategories || filter.category == item.category)
  }

  /** `filteredItems`. */
  function FilteredItems(items: seq<FoodItem>, term: string, filter: CategoryFilter): (r: seq<FoodItem>)
    ensures Seqs.SublistOf(r, items)
    ensures forall x :: x in r <==> x in items && Matches(x, term, filter)
    ensures forall x :: multiset(r)[x] == if Matches(x, term, filter) then multiset(items)[x] else 0
  {
    Seqs.Filter(items, x => Matches(x, term, filter))
  }

  /** An empty search with the sentinel selected lists every item. */
  lemma {:induction false} EmptySearchListsAll(items: seq<FoodItem>)
    ensures FilteredItems(items, "", AllCategories) == items
  {
    forall x | x in items
      ensures Matches(x, "", AllCategories)
    {
      ContainsEmpty(Lower(x.name));
    }
    Seqs.FilterAll(items, x => Matches(x, "", AllCategories));
  }

  /** Search terms with equal lower-case forms give the same result. */
  lemma {:induction false} SearchIgnoresCase(items: seq<FoodItem>, t1: string, t2: string, filter: CategoryFilter)
    requires Lower(t1) == Lower(t2)
    ensures FilteredItems(items, t1, filter) == FilteredItems(items, t2, filter)
  {
    Seqs.FilterCongruent(items, x => Matches(x, t1, filter), x => Matches(x, t2, filter));
  }

  /** In particular, searching for a term or for its lower-case form is the same. */
  lemma {:induction false} SearchLowerCaseTerm(items: seq<FoodItem>, term: string, filter: CategoryFilter)
    ensures FilteredItems(items, Lower(term), filter) == FilteredItems(items, term, filter)
  {
    LowerIdempotent(term);
    SearchIgnoresCase(items, Lower(term), term, filter);
  }

  /** The inventory's red mark: strictly before now. */
  predicate IsExpired(item: FoodItem, now: int)
    ensures IsExpired(item, now) ==> Dashboard.DaysLeft(item.expiryDate, now) <= 0
    ensures !IsExpired(item, now) ==> Dashboard.DaysLeft(item.expiryDate, now) >= 0
  {
    item.expiryDate < now
  }

  /** What the dashboard calls expired the inventory marks expired too. */
  lemma ExpiredTierIsMarkedExpired(item: FoodItem, now: int)
    ensures Dashboard.ItemTier(item, now) == Dashboard.Expired ==> IsExpired(item, now)
  {
  }

  /** The converse fails: for its whole last day past expiry an item is already
      marked expired here while the dashboard still shows it as urgent; an item
      expiring exactly now is not marked at all. With IsExpired's own contract
      this fixes the mark at every instant. */
  lemma MarkedExpiredButUrgent(item: FoodItem, now: int)
    requires now - DayMs < item.expiryDate < now
    ensures IsExpired(item, now)
    ensures Dashboard.ItemTier(item, now) == Dashboard.Urgent
    ensures !IsExpired(item.(expiryDate := now), now)
  {
  }

  /** The chips: the sentinel, then the six categories in their fixed order. */
  const Chips: seq<CategoryFilter> :=
    [AllCategories, Only(MeatSeafood), Only(Vegetables), Only(Fruit), Only(DairyEggs), Only(Spices), Only(Other)]

  lemma ChipsAreSentinelThenCategories()
    ensures |Chips| == |Categories| + 1
    ensures Chips[0] == AllCategories
    ensures forall i :: 0 <= i < |Categories| ==> Chips[i + 1] == Only(Categories[i])
  {
  }
}
