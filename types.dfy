/** The shared record types of the fridge app (types.ts). Instants are integer
    milliseconds since the epoch; an ISO date string is represented by the instant
    it denotes. */
module Types {

  datatype Option<+T> = None | Some(value: T)

  datatype Result<+T, +E> = Success(value: T) | Failure(error: E)

  /** One day in milliseconds (1000 * 3600 * 24). */
  const DayMs: int := 86400000

  /** The closed category enumeration. */
  datatype Category = MeatSeafood | Vegetables | Fruit | DairyEggs | Spices | Other

  /** The string value each category has in the source. */
  function CategoryName(c: Category): (s: string)
    ensures s != ""
  {
    match c
    case MeatSeafood => "Thịt & Hải sản"
    case Vegetables => "Rau củ"
    case Fruit => "Trái cây"
    case DairyEggs => "Sữa & Trứng"
    case Spices => "Gia vị"
    case Other => "Khác"
  }

  /** Distinct categories have distinct names, so comparing names is comparing categories. */
  lemma CategoryNameInjective(a: Category, b: Category)
    ensures CategoryName(a) == CategoryName(b) <==> a == b
  {
  }

  /** The category list in the fixed order the source uses for its pickers. */
  const Categories: seq<Category> := [MeatSeafood, Vegetables, Fruit, DairyEggs, Spices, Other]

  /** Every category appears in Categories exactly once. */
  lemma CategoriesComplete(c: Category)
    ensures c in Categories
    ensures multiset(Categories)[c] == 1
  {
  }

  datatype Language = Vi | En | Ja | Ko | Zh

  /** The language code stored under the "lang" key. */
  function LanguageCode(l: Language): (code: string)
    ensures |code| == 2
  {
    match l
    case Vi => "vi"
    case En => "en"
    case Ja => "ja"
    case Ko => "ko"
    case Zh => "zh"
  }

  /** Reads a stored language code back; None for any string that is not one of the five codes. */
  function LanguageOfCode(code: string): (r: Option<Language>)
    ensures r.Some? ==> LanguageCode(r.value) == code
    ensures forall l :: LanguageCode(l) == code ==> r == Some(l)
  {
    if code == "vi" then Some(Vi)
    else if code == "en" then Some(En)
    else if code == "ja" then Some(Ja)
    else if code == "ko" then Some(Ko)
    else if code == "zh" then Some(Zh)
    else None
  }

  /** A stored food item; `icon` is optional. */
  datatype FoodItem = FoodItem(
    id: string,
    name: string,
    category: Category,
    expiryDate: int,
    quantity: string,
    unit: string,
    addedAt: int,
    icon: Option<string>)

  /** A food item before the store gives it an id and a timestamp
      (Omit<FoodItem, "id" | "addedAt">). */
  datatype NewItem = NewItem(
    name: string,
    category: Category,
    expiryDate: int,
    quantity: string,
    unit: string,
    icon: Option<string>)

  datatype Recipe = Recipe(
    id: string,
    name: string,
    ingredients: seq<string>,
    instructions: seq<string>,
    reason: string,
    calories: int)
}
