/** The add-item form (components/AddFoodModal.tsx): its initial values, one
    update per field, and the submit guard that keeps blank names out of the
    store. */
module AddFoodModal {
  import opened Types

  /** The characters `String.prototype.trim` removes: the ECMAScript white space
      (tab, vertical tab, form feed, the byte order mark and every space
      separator) and the line terminators. */
  predicate IsJsWhitespace(c: char)
  {
    || c == '\t' || c == '\n' || c == '\U{B}' || c == '\U{C}' || c == '\r' || c == ' '
    || c == '\U{A0}' || c == '\U{1680}' || ('\U{2000}' <= c <= '\U{200A}')
    || c == '\U{2028}' || c == '\U{2029}' || c == '\U{202F}' || c == '\U{205F}'
    || c == '\U{3000}' || c == '\U{FEFF}'
  }

  /** Leading white space removed. */
  function TrimStart(s: string): (r: string)
    ensures |r| <= |s| && r == s[|s| - |r|..]
    ensures r != [] ==> !IsJsWhitespace(r[0])
    ensures forall i :: 0 <= i < |s| - |r| ==> IsJsWhitespace(s[i])
  {
    if s != [] && IsJsWhitespace(s[0]) then TrimStart(s[1..]) else s
  }

  /** Trailing white space removed. */
  function TrimEnd(s: string): (r: string)
    ensures |r| <= |s| && r == s[..|r|]
    ensures r != [] ==> !IsJsWhitespace(r[|r| - 1])
    ensures forall i :: |r| <= i < |s| ==> IsJsWhitespace(s[i])
  {
    if s != [] && IsJsWhitespace(s[|s| - 1]) then TrimEnd(s[..|s| - 1]) else s
  }

  /** `s.trim()`: the piece of `s` between its leading and its trailing white
      space. It is empty exactly when the name is blank. */
  function Trim(s: string): (r: string)
    ensures |r| <= |s|
    ensures |r| <= |TrimStart(s)| && r == s[|s| - |TrimStart(s)|..|s| - |TrimStart(s)| + |r|]
    ensures r != [] ==> !IsJsWhitespace(r[0]) && !IsJsWhitespace(r[|r| - 1])
    ensures forall i :: |s| - |TrimStart(s)| + |r| <= i < |s| ==> IsJsWhitespace(s[i])
    ensures r == "" <==> IsBlank(s)
  {
    TrimEnd(TrimStart(s))
  }

  /** A name is blank when every character is white space (the empty name too). */
  predicate IsBlank(s: string)
  {
    forall i :: 0 <= i < |s| ==> IsJsWhitespace(s[i])
  }

  /** The form's starting values: no name, meat & seafood, quantity "1", the first
      unit of the current language, the steak icon, and as expiry the date (UTC)
      seven days from now, that is midnight UTC of that day. */
  function InitialForm(now: int, firstUnit: string): (f: NewItem)
    ensures f.name == "" && f.category == MeatSeafood && f.quantity == "1"
    ensures f.unit == firstUnit && f.icon == Some("🥩")
    ensures f.expiryDate % DayMs == 0
    ensures now + 6 * DayMs < f.expiryDate <= now + 7 * DayMs
  {
    NewItem("", MeatSeafood, ((now + 7 * DayMs) / DayMs) * DayMs, "1", firstUnit, Some("🥩"))
  }

  /** The category buttons of the form, as the strings the source lists. */
  const CategoryChoices: seq<string> :=
    ["Thịt & Hải sản", "Rau củ", "Trái cây", "Sữa & Trứng", "Gia vị", "Khác"]

  /** The choices are the names of the six categories, in the fixed order, each once. */
  lemma CategoryChoicesAreCategories()
    ensures |CategoryChoices| == |Categories|
    ensures forall i :: 0 <= i < |Categories| ==> CategoryChoices[i] == CategoryName(Categories[i])
    ensures forall c :: CategoryName(c) in CategoryChoices
  {
  }

  class AddFoodForm {
    var formData: NewItem

    /** `firstUnit` is `t.units[0]` of the current language. */
    constructor (now: int, firstUnit: string)
      ensures formData == InitialForm(now, firstUnit)
    {
      formData := InitialForm(now, firstUnit);
    }

    method SetIcon(icon: string)
      modifies this
      ensures formData == old(formData).(icon := Some(icon))
    {
      formData := formData.(icon := Some(icon));
    }

    method SetName(name: string)
      modifies this
      ensures formData == old(formData).(name := name)
    {
      formData := formData.(name := name);
    }

    method SetQuantity(quantity: string)
      modifies this
      ensures formData == old(formData).(quantity := quantity)
    {
      formData := formData.(quantity := quantity);
    }

    method SetUnit(unit: string)
      modifies this
      ensures formData == old(formData).(unit := unit)
    {
      formData := formData.(unit := unit);
    }

    method SetCategory(category: Category)
      modifies this
      ensures formData == old(formData).(category := category)
    {
      formData := formData.(category := category);
    }

    method SetExpiryDate(expiryDate: int)
      modifies this
      ensures formData == old(formData).(expiryDate := expiryDate)
    {
      formData := formData.(expiryDate := expiryDate);
    }

    /** `handleSubmit`: a blank name stops here; otherwise `onAdd` receives the
        form as it is (the name untrimmed) and then `onClose` runs. */
    method HandleSubmit() returns (added: Option<NewItem>, closed: bool)
      ensures added.Some? <==> !IsBlank(formData.name)
      ensures added.Some? ==> added.value == formData
      ensures closed <==> added.Some?
    {
      if Trim(formData.name) == "" {
        return None, false;
      }
      added := Some(formData);
      closed := true;
    }
  }
}
