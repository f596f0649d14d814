/** The recipe request of services/geminiService.ts: which item names go into the
    prompt, the language name, and how the reply is read. The model call itself
    is an external oracle whose reply is a parameter. */
module GeminiService {
  import opened Types
  import Seqs

  /** `items.map(i => i.name)`. */
  function Names(items: seq<FoodItem>): (names: seq<string>)
    ensures |names| == |items|
    ensures forall i :: 0 <= i < |items| ==> names[i] == items[i].name
  {
    seq(|items|, i requires 0 <= i < |items| => items[i].name)
  }

  /** `listExpiring`: the expiring names joined with ", ", or "None" when there are none. */
  function PriorityText(expiring: seq<FoodItem>): (r: string)
    ensures expiring == [] ==> r == "None"
    ensures expiring != [] ==> expiring[0].name <= r
    ensures |expiring| == 1 ==> r == expiring[0].name
  {
    if |expiring| > 0 then Seqs.Join(Names(expiring), ", ") else "None"
  }

  /** Naming one more item appends its name. */
  lemma NamesSnoc(items: seq<FoodItem>, x: FoodItem)
    ensures Names(items + [x]) == Names(items) + [x.name]
  {
    assert forall i :: 0 <= i < |items| ==> (items + [x])[i] == items[i];
  }

  /** With the one-item case above, this determines the priority text for every
      list: one more expiring item appends ", " and its name. */
  lemma {:induction false} PriorityTextSnoc(expiring: seq<FoodItem>, x: FoodItem)
    requires expiring != []
    ensures PriorityText(expiring + [x]) == PriorityText(expiring) + ", " + x.name
  {
    NamesSnoc(expiring, x);
    Seqs.JoinSnoc(Names(expiring), x.name, ", ");
  }

  /** The text alone does not tell "no expiring items" from one item named "None". */
  lemma PriorityTextAmbiguous(item: FoodItem)
    requires item.name == "None"
    ensures PriorityText([item]) == PriorityText([])
  {
  }

  /** `expiringItems.find(e => e.id === id)` found something. */
  predicate IsListed(expiring: seq<FoodItem>, id: string)
  {
    exists e :: e in expiring && e.id == id
  }

  /** The items of `allItems` that are not expiring, compared by id, in order. */
  function NotExpiring(expiring: seq<FoodItem>, all: seq<FoodItem>): (r: seq<FoodItem>)
    ensures Seqs.SublistOf(r, all)
    ensures forall x :: x in r <==> x in all && !IsListed(expiring, x.id)
    ensures forall x :: multiset(r)[x] == if IsListed(expiring, x.id) then 0 else multiset(all)[x]
  {
    Seqs.Filter(all, (i: FoodItem) => !IsListed(expiring, i.id))
  }

  /** The items behind `listOthers`: the first ten of NotExpiring. */
  function SupportingItems(expiring: seq<FoodItem>, all: seq<FoodItem>): (r: seq<FoodItem>)
    ensures |r| <= 10
    ensures r <= NotExpiring(expiring, all)
    ensures |NotExpiring(expiring, all)| >= 10 ==> |r| == 10
    ensures |NotExpiring(expiring, all)| < 10 ==> r == NotExpiring(expiring, all)
    ensures forall x :: x in r ==> x in all && forall e :: e in expiring ==> e.id != x.id
  {
    Seqs.Take(NotExpiring(expiring, all), 10)
  }

  /** An item appended to `all` joins the candidates exactly when its id is not
      an expiring id. */
  lemma {:induction false} NotExpiringSnoc(expiring: seq<FoodItem>, all: seq<FoodItem>, x: FoodItem)
    ensures NotExpiring(expiring, all + [x]) ==
              NotExpiring(expiring, all) + (if IsListed(expiring, x.id) then [] else [x])
  {
    var p := (i: FoodItem) => !IsListed(expiring, i.id);
    Seqs.FilterAppend(all, [x], p);
    Seqs.FilterSingleton(x, p);
  }

  /** `listOthers`. */
  function SupportingText(expiring: seq<FoodItem>, all: seq<FoodItem>): (r: string)
    ensures SupportingItems(expiring, all) == [] ==> r == ""
    ensures SupportingItems(expiring, all) != [] ==> SupportingItems(expiring, all)[0].name <= r
    ensures |SupportingItems(expiring, all)| == 1 ==> r == SupportingItems(expiring, all)[0].name
  {
    Seqs.Join(Names(SupportingItems(expiring, all)), ", ")
  }

  /** With the empty and one-item cases of SupportingText, these determine the
      supporting text for every list: an appended item whose id is expiring, or
      one beyond the first ten candidates, changes nothing; any other appended
      item appends ", " and its name. */
  lemma {:induction false} SupportingTextSnoc(expiring: seq<FoodItem>, all: seq<FoodItem>, x: FoodItem)
    ensures IsListed(expiring, x.id) || |NotExpiring(expiring, all)| >= 10 ==>
              SupportingText(expiring, all + [x]) == SupportingText(expiring, all)
    ensures !IsListed(expiring, x.id) && 0 < |NotExpiring(expiring, all)| < 10 ==>
              SupportingText(expiring, all + [x]) == SupportingText(expiring, all) + ", " + x.name
  {
    var before := NotExpiring(expiring, all);
    NotExpiringSnoc(expiring, all, x);
    if IsListed(expiring, x.id) {
      assert NotExpiring(expiring, all + [x]) == before;
    } else if |before| >= 10 {
      assert SupportingItems(expiring, all + [x]) == (before + [x])[..10] == before[..10];
    } else if |before| > 0 {
      assert SupportingItems(expiring, all + [x]) == before + [x];
      NamesSnoc(before, x);
      Seqs.JoinSnoc(Names(before), x.name, ", ");
    }
  }

  /** `languageMap`: the language name written into the prompt. */
  function LanguageName(l: Language): (name: string)
    ensures name != ""
  {
    match l
    case Vi => "Vietnamese (Tiếng Việt)"
    case En => "English"
    case Ja => "Japanese (日本語)"
    case Ko => "Korean (한국어)"
    case Zh => "Chinese (中文)"
  }

  /** Different languages are named differently in the prompt. */
  lemma LanguageNameInjective(a: Language, b: Language)
    ensures LanguageName(a) == LanguageName(b) <==> a == b
  {
  }

  /** What the prompt is built from. */
  datatype Request = Request(priority: string, supporting: string, language: string)

  function BuildRequest(expiring: seq<FoodItem>, all: seq<FoodItem>, lang: Language): (r: Request)
    ensures r.priority == PriorityText(expiring)
    ensures r.supporting == SupportingText(expiring, all)
    ensures r.language == LanguageName(lang)
  {
    Request(PriorityText(expiring), SupportingText(expiring, all), LanguageName(lang))
  }

  /** The text of the model's answer: absent, empty, a JSON array of recipes, or
      something JSON.parse rejects. */
  datatype ReplyText = NoText | EmptyText | RecipesJson(recipes: seq<Recipe>) | Malformed

  /** The oracle: an answer, or a failure of the SDK call. */
  datatype Reply = Answered(text: ReplyText) | CallFailed

  /** What `generateRecipes` gives its caller: a list, or a thrown error. */
  datatype Outcome = Returned(recipes: seq<Recipe>) | Threw

  /** The end of `generateRecipes`, once the request is sent: a missing or empty
      text reads as "[]"; a failed call or unparseable text is rethrown. */
  function ReadReply(reply: Reply): (r: Outcome)
    ensures r == Threw <==> reply == CallFailed || reply == Answered(Malformed)
    ensures reply == Answered(NoText) || reply == Answered(EmptyText) ==> r == Returned([])
    ensures reply.Answered? && reply.text.RecipesJson? ==> r == Returned(reply.text.recipes)
  {
    match reply
    case CallFailed => Threw
    case Answered(text) =>
      match text
      case NoText => Returned([])
      case EmptyText => Returned([])
      case RecipesJson(rs) => Returned(rs)
      case Malformed => Threw
  }
}
