/**
 * The donor's donation form: its validation, the allergen toggle and the
 * clearing of a field's error when the field is edited.
 */
module DonationFormPage {
  import opened Common
  import opened Text

  /** The form's text fields and allergen list (the two checkboxes are not
      validated and are left out). */
  datatype FormData = FormData(
    foodName: string, foodType: string, description: string, quantity: string,
    quantityUnit: string, expiryTime: string, pickupAddress: string,
    pickupLat: string, pickupLng: string, pickupStartTime: string,
    pickupEndTime: string, specialInstructions: string, allergens: seq<string>)

  predicate IsDigit(c: char) {
    '0' <= c <= '9'
  }

  /** The length of the longest prefix of `s` made of decimal digits. */
  function DigitRun(s: string): (n: nat)
    ensures n <= |s| && forall i :: 0 <= i < n ==> IsDigit(s[i])
    ensures n == |s| || !IsDigit(s[n])
  {
    if s != [] && IsDigit(s[0]) then 1 + DigitRun(s[1..]) else 0
  }

  function DigitValue(c: char): nat
    requires IsDigit(c)
  {
    c as int - '0' as int
  }

  function DigitsValue(d: string): (v: nat)
    requires forall i :: 0 <= i < |d| ==> IsDigit(d[i])
  {
    if d == [] then 0 else DigitsValue(d[..|d| - 1]) * 10 + DigitValue(d[|d| - 1])
  }

  function Pow10(n: nat): (p: nat)
    ensures p >= 1
  {
    if n == 0 then 1 else 10 * Pow10(n - 1)
  }

  /** `parseFloat` on the inputs a form field gives: leading whitespace is
      skipped, then an optional sign, digits, and an optional fraction; the
      longest such prefix is read, and `None` (JavaScript's `NaN`) comes back
      when it holds no digit. */
  function ParseFloat(s: string): Option<real> {
    var t := TrimStart(s);
    if |t| > 0 && (t[0] == '-' || t[0] == '+') then
      match Unsigned(t[1..])
      case None => None
      case Some(m) => Some(if t[0] == '-' then -m else m)
    else Unsigned(t)
  }

  /** Digits, then optionally a point and more digits; `None` without a digit. */
  function Unsigned(u: string): Option<real> {
    var whole := u[..DigitRun(u)];
    var rest := u[|whole|..];
    var frac := if |rest| > 0 && rest[0] == '.' then rest[1..][..DigitRun(rest[1..])] else "";
    if whole == "" && frac == "" then None
    else Some(DigitsValue(whole) as real + DigitsValue(frac) as real / Pow10(|frac|) as real)
  }

  /** `!formData.quantity || parseFloat(formData.quantity) <= 0`. A quantity
      that does not parse is `NaN`, and `NaN <= 0` is false. */
  predicate QuantityRejected(q: string) {
    q == "" || (ParseFloat(q).Some? && ParseFloat(q).value <= 0.0)
  }

  /** The quantity check lets through any text that does not start like a
      number, such as "abc", and so reports no error for it. */
  lemma NonNumericQuantityPasses(q: string)
    requires |q| > 0 && !IsWhitespace(q[0]) && !IsDigit(q[0]) && q[0] !in "+-."
    ensures !QuantityRejected(q)
  {
    assert TrimStart(q) == q;
    assert DigitRun(q) == 0;
  }

  /** The keys of the form's errors record. */
  datatype Field = FoodName | FoodType | Quantity | ExpiryTime | PickupAddress
                 | PickupLat | PickupStartTime | PickupEndTime

  /** The message each key's check reports. */
  function Message(k: Field): string {
    match k
    case FoodName => "Food name is required"
    case FoodType => "Food type is required"
    case Quantity => "Valid quantity is required"
    case ExpiryTime => "Expiry time is required"
    case PickupAddress => "Pickup address is required"
    case PickupLat => "Location coordinates are required"
    case PickupStartTime => "Pickup start time is required"
    case PickupEndTime => "Pickup end time is required"
  }

  /** The check under each key fails. */
  predicate Fails(f: FormData, k: Field) {
    match k
    case FoodName => Trim(f.foodName) == ""
    case FoodType => f.foodType == ""
    case Quantity => QuantityRejected(f.quantity)
    case ExpiryTime => f.expiryTime == ""
    case PickupAddress => Trim(f.pickupAddress) == ""
    case PickupLat => f.pickupLat == "" || f.pickupLng == ""
    case PickupStartTime => f.pickupStartTime == ""
    case PickupEndTime => f.pickupEndTime == ""
  }

  /** The food name and the address fail exactly when they are blank:
      whitespace alone does not count as filled in. */
  lemma BlankFieldsFail(f: FormData)
    ensures Fails(f, FoodName) <==> IsBlank(f.foodName)
    ensures Fails(f, PickupAddress) <==> IsBlank(f.pickupAddress)
  {
    TrimEmptyIffBlank(f.foodName);
    TrimEmptyIffBlank(f.pickupAddress);
  }

  /** One `if (check) newErrors.key = message` step, on a key no earlier
      check has written. */
  method Report(f: FormData, before: map<Field, string>, k: Field) returns (errors: map<Field, string>)
    requires k !in before
    ensures forall j :: j in errors <==> j in before || (j == k && Fails(f, k))
    ensures forall j :: j in errors ==> errors[j] == if j in before then before[j] else Message(k)
  {
    errors := before;
    if Fails(f, k) {
      errors := errors[k := Message(k)];
    }
  }

  /** The checks on the food itself: name, type, quantity and expiry. */
  predicate FoodField(k: Field) {
    k == FoodName || k == FoodType || k == Quantity || k == ExpiryTime
  }

  /** The first four checks of `validateForm`, on an empty record. */
  method ValidateFood(f: FormData) returns (errors: map<Field, string>)
    ensures forall k :: k in errors <==> FoodField(k) && Fails(f, k)
    ensures forall k :: k in errors ==> errors[k] == Message(k)
  {
    errors := Report(f, map[], FoodName);
    errors := Report(f, errors, FoodType);
    errors := Report(f, errors, Quantity);
    errors := Report(f, errors, ExpiryTime);
  }

  /** The checks on where the food is collected: the address and both coordinates. */
  predicate PlaceField(k: Field) {
    k == PickupAddress || k == PickupLat
  }

  /** The fifth and sixth checks of `validateForm`: address and coordinates. */
  method ValidatePlace(f: FormData, before: map<Field, string>) returns (errors: map<Field, string>)
    requires forall k :: k in before ==> FoodField(k)
    ensures forall k :: k in errors <==> k in before || (PlaceField(k) && Fails(f, k))
    ensures forall k :: k in errors ==> errors[k] == if k in before then before[k] else Message(k)
  {
    errors := Report(f, before, PickupAddress);
    errors := Report(f, errors, PickupLat);
  }

  /** The last four checks of `validateForm`, on the pickup: address,
      coordinates and the two times. */
  method ValidatePickup(f: FormData, before: map<Field, string>) returns (errors: map<Field, string>)
    requires forall k :: k in before ==> FoodField(k)
    ensures forall k :: k in errors <==> k in before || (!FoodField(k) && Fails(f, k))
    ensures forall k :: k in errors ==> errors[k] == if k in before then before[k] else Message(k)
  {
    var placed := ValidatePlace(f, before);
    errors := Report(f, placed, PickupStartTime);
    errors := Report(f, errors, PickupEndTime);
  }

  /** `validateForm`: one message per failing check under the field's own
      key (both coordinates answer under `pickupLat`), and the form is
      valid exactly when no check fails. */
  method ValidateForm(f: FormData) returns (errors: map<Field, string>, valid: bool)
    ensures forall k :: k in errors <==> Fails(f, k)
    ensures forall k :: k in errors ==> errors[k] == Message(k)
    ensures valid <==> forall k :: !Fails(f, k)
  {
    errors := ValidateFood(f);
    errors := ValidatePickup(f, errors);
    valid := errors == map[];
    assert valid <==> forall k :: k !in errors;
  }

  /** `handleAllergenToggle`: a listed allergen is removed, every copy of
      it; an unlisted one is appended. */
  function ToggledAllergen(allergens: seq<string>, a: string): (r: seq<string>)
    ensures a in r <==> a !in allergens
    ensures forall x :: x != a ==> (x in r <==> x in allergens)
    ensures a !in allergens ==> r == allergens + [a]
  {
    if a in allergens then Filter(allergens, (x: string) => x != a) else allergens + [a]
  }

  /** Toggling an allergen the list lacked, twice, gives the list back. */
  lemma {:induction false} ToggleTwice(allergens: seq<string>, a: string)
    requires a !in allergens
    ensures ToggledAllergen(ToggledAllergen(allergens, a), a) == allergens
  {
    var p := (x: string) => x != a;
    FilterAppend(allergens, [a], p);
    FilterAll(allergens, p);
    assert Filter([a], p) == [];
  }

  /** Toggling a listed allergen twice moves it, once, to the end of the
      list of the others. */
  lemma ToggleListedTwice(allergens: seq<string>, a: string)
    requires a in allergens
    ensures ToggledAllergen(ToggledAllergen(allergens, a), a) ==
            Filter(allergens, (x: string) => x != a) + [a]
  {
  }

  /** `handleChange`'s error clearing: a field's non-empty error becomes
      the empty string; the key stays and every other error is kept. */
  function ErrorCleared(errors: map<string, string>, name: string): (r: map<string, string>)
    ensures r.Keys == errors.Keys
    ensures name in errors ==> r[name] == ""
    ensures forall k :: k in errors && k != name ==> r[k] == errors[k]
  {
    if name in errors && errors[name] != "" then errors[name := ""] else errors
  }

  /** Clearing a field's error a second time changes nothing: the first
      clearing already left it empty. */
  lemma ClearingTwice(errors: map<string, string>, name: string)
    ensures ErrorCleared(ErrorCleared(errors, name), name) == ErrorCleared(errors, name)
  {
  }
}
