/** Expiry classification on the dashboard (components/Dashboard.tsx): days left
    rounded up, the four status tiers, the first five expiring items, the days
    label and the category glyph. */
module Dashboard {
  import opened Types
  import Seqs

  /** `Math.ceil((expiry - now) / DayMs)`: the least whole number of days that
      covers the time left. Dafny's `/` floors for a positive divisor, so the
      ceiling is the negated floor of the negated difference. */
  function DaysLeft(expiry: int, now: int): (d: int)
    ensures (d - 1) * DayMs < expiry - now <= d * DayMs
  {
    -((now - expiry) / DayMs)
  }

  /** The bounds in DaysLeft's contract pin the result down: it is the ceiling. */
  lemma DaysLeftIsCeiling(expiry: int, now: int, d: int)
    requires (d - 1) * DayMs < expiry - now <= d * DayMs
    ensures DaysLeft(expiry, now) == d
  {
  }

  /** An item 60 hours out has 3 days left; one due in exactly two days has 2. */
  lemma DaysLeftExamples(now: int)
    ensures DaysLeft(now + 60 * 3600 * 1000, now) == 3
    ensures DaysLeft(now + 2 * DayMs, now) == 2
    ensures DaysLeft(now - DayMs, now) == -1
  {
  }

  datatype Tier = Expired | Urgent | Soon | Fresh

  /** `getStatusInfo`: the first matching test decides. */
  function StatusTier(daysLeft: int): (t: Tier)
    ensures t == Expired <==> daysLeft < 0
    ensures t == Urgent <==> 0 <= daysLeft <= 1
    ensures t == Soon <==> 2 <= daysLeft <= 3
    ensures t == Fresh <==> 3 < daysLeft
  {
    if daysLeft < 0 then Expired
    else if daysLeft <= 1 then Urgent
    else if daysLeft <= 3 then Soon
    else Fresh
  }

  /** How alarming a tier is: Expired is the most severe. */
  function Severity(t: Tier): (n: nat)
    ensures n <= 3
    ensures t == Expired <==> n == 3
    ensures t == Fresh <==> n == 0
  {
    match t
    case Expired => 3
    case Urgent => 2
    case Soon => 1
    case Fresh => 0
  }

  /** More days left never gives a more severe tier. */
  lemma TierMonotone(a: int, b: int)
    requires a <= b
    ensures Severity(StatusTier(b)) <= Severity(StatusTier(a))
  {
  }

  /** The boundary values of the tiers. */
  lemma TierBoundaries()
    ensures StatusTier(-1) == Expired
    ensures StatusTier(0) == Urgent && StatusTier(1) == Urgent
    ensures StatusTier(2) == Soon && StatusTier(3) == Soon
    ensures StatusTier(4) == Fresh
  {
  }

  /** The tier of an item at a given instant. */
  function ItemTier(item: FoodItem, now: int): (t: Tier)
    ensures t == Expired <==> item.expiryDate <= now - DayMs
    ensures t == Urgent <==> now - DayMs < item.expiryDate <= now + DayMs
    ensures t == Soon <==> now + DayMs < item.expiryDate <= now + 3 * DayMs
    ensures t == Fresh <==> item.expiryDate > now + 3 * DayMs
    ensures t == StatusTier(DaysLeft(item.expiryDate, now))
  {
    StatusTier(DaysLeft(item.expiryDate, now))
  }

  /** An item that expired less than a full day ago still has 0 days left and
      is shown as urgent, not expired. */
  lemma RecentlyExpiredIsUrgent(item: FoodItem, now: int)
    requires now - DayMs < item.expiryDate <= now
    ensures DaysLeft(item.expiryDate, now) == 0
    ensures ItemTier(item, now) == Urgent
  {
  }

  /** The days label: "!!!" for a negative count, otherwise the count itself. */
  datatype DaysLabel = Overdue | DaysCount(days: nat)

  function DaysLabelOf(daysLeft: int): (l: DaysLabel)
    ensures l == Overdue <==> daysLeft < 0
    ensures l.DaysCount? ==> l.days == daysLeft
  {
    if daysLeft < 0 then Overdue else DaysCount(daysLeft)
  }

  /** `expiringItems.slice(0, 5)`: at most five, the first ones, in order. */
  function ShownExpiring(expiring: seq<FoodItem>): (r: seq<FoodItem>)
    ensures |r| <= 5
    ensures r <= expiring
    ensures |expiring| >= 5 ==> |r| == 5
    ensures |expiring| < 5 ==> r == expiring
  {
    Seqs.Take(expiring, 5)
  }

  /** The glyphs `getCategoryIcon` can return: five category glyphs and the box. */
  datatype Glyph = MeatGlyph | VegetableGlyph | FruitGlyph | DairyGlyph | SaltGlyph | BoxGlyph

  /** The five case labels of `getCategoryIcon`, character for character as the
      source text spells them. */
  const IconLabels: seq<string> := [
    "Th·ªãt & H·∫£i s·∫£n",
    "Rau c·ªß",
    "Tr√°i c√¢y",
    "S·ªØa & Tr·ª©ng",
    "Gia v·ªã"]

  /** `getCategoryIcon`: a switch over strings with a default. */
  function CategoryIcon(category: string): (g: Glyph)
    ensures g == BoxGlyph <==> category !in IconLabels
  {
    if category == IconLabels[0] then MeatGlyph
    else if category == IconLabels[1] then VegetableGlyph
    else if category == IconLabels[2] then FruitGlyph
    else if category == IconLabels[3] then DairyGlyph
    else if category == IconLabels[4] then SaltGlyph
    else BoxGlyph
  }

  /** Distinct case labels give distinct glyphs. */
  lemma CategoryIconDistinguishesLabels(i: nat, j: nat)
    requires i < j < |IconLabels|
    ensures CategoryIcon(IconLabels[i]) != CategoryIcon(IconLabels[j])
  {
  }

  /** The icon a card shows: the item's own icon when it is a non-empty string
      (`item.icon || ...`), otherwise the category glyph. */
  datatype Icon = Custom(text: string) | Stock(glyph: Glyph)

  function ItemIcon(item: FoodItem): (i: Icon)
    ensures i.Custom? <==> item.icon.Some? && item.icon.value != ""
    ensures i.Custom? ==> i.text == item.icon.value
    ensures i.Stock? ==> i.glyph == CategoryIcon(CategoryName(item.category))
  {
    if item.icon.Some? && item.icon.value != "" then Custom(item.icon.value)
    else Stock(CategoryIcon(CategoryName(item.category)))
  }

  /** One expiring-item card of the dashboard. */
  datatype Card = Card(id: string, icon: Icon, name: string, tier: Tier, daysLabel: DaysLabel)

  function CardFor(item: FoodItem, now: int): (c: Card)
    ensures c.id == item.id && c.name == item.name
    ensures c.daysLabel == Overdue <==> c.tier == Expired
    ensures c.tier == ItemTier(item, now)
    ensures c.daysLabel == DaysLabelOf(DaysLeft(item.expiryDate, now))
    ensures c.icon == ItemIcon(item)
  {
    var d := DaysLeft(item.expiryDate, now);
    Card(item.id, ItemIcon(item), item.name, StatusTier(d), DaysLabelOf(d))
  }

  /** The cards of the dashboard: one per shown item, in order. */
  function Cards(expiring: seq<FoodItem>, now: int): (cs: seq<Card>)
    ensures |cs| == |ShownExpiring(expiring)|
    ensures forall i :: 0 <= i < |cs| ==> cs[i] == CardFor(expiring[i], now)
  {
    var shown := ShownExpiring(expiring);
    seq(|shown|, i requires 0 <= i < |shown| => CardFor(shown[i], now))
  }
}
