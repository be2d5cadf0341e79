/**
 * The Donation schema: its three enumerations, the stored record and the
 * validators `save()` and update-with-validators apply to it.
 */
module DonationModel {
  import opened Common
  import opened Text

  datatype DonationStatus = Available | Accepted | PickedUp | Delivered | Cancelled | Expired

  function StatusName(s: DonationStatus): string {
    match s
    case Available => "available"
    case Accepted => "accepted"
    case PickedUp => "picked_up"
    case Delivered => "delivered"
    case Cancelled => "cancelled"
    case Expired => "expired"
  }

  /** The enum validator: a string is accepted exactly when it names a status. */
  function ParseStatus(s: string): (r: Option<DonationStatus>)
    ensures forall st :: r == Some(st) <==> StatusName(st) == s
  {
    if s == "available" then Some(Available)
    else if s == "accepted" then Some(Accepted)
    else if s == "picked_up" then Some(PickedUp)
    else if s == "delivered" then Some(Delivered)
    else if s == "cancelled" then Some(Cancelled)
    else if s == "expired" then Some(Expired)
    else None
  }

  datatype FoodType = Cooked | Packaged | FreshProduce | Bakery | Dairy | OtherFood

  function FoodTypeName(f: FoodType): string {
    match f
    case Cooked => "cooked"
    case Packaged => "packaged"
    case FreshProduce => "fresh_produce"
    case Bakery => "bakery"
    case Dairy => "dairy"
    case OtherFood => "other"
  }

  function ParseFoodType(s: string): (r: Option<FoodType>)
    ensures forall f :: r == Some(f) <==> FoodTypeName(f) == s
  {
    if s == "cooked" then Some(Cooked)
    else if s == "packaged" then Some(Packaged)
    else if s == "fresh_produce" then Some(FreshProduce)
    else if s == "bakery" then Some(Bakery)
    else if s == "dairy" then Some(Dairy)
    else if s == "other" then Some(OtherFood)
    else None
  }

  datatype QuantityUnit = Meals | Kg | Items | Servings | Boxes

  function UnitName(u: QuantityUnit): string {
    match u
    case Meals => "meals"
    case Kg => "kg"
    case Items => "items"
    case Servings => "servings"
    case Boxes => "boxes"
  }

  function ParseUnit(s: string): (r: Option<QuantityUnit>)
    ensures forall u :: r == Some(u) <==> UnitName(u) == s
  {
    if s == "meals" then Some(Meals)
    else if s == "kg" then Some(Kg)
    else if s == "items" then Some(Items)
    else if s == "servings" then Some(Servings)
    else if s == "boxes" then Some(Boxes)
    else None
  }

  /** The schema default of `quantityUnit`. */
  const DefaultUnit: QuantityUnit := Meals

  datatype Location = Location(address: string, lat: real, lng: real)

  datatype Donation = Donation(
    donorId: Id,
    foodType: FoodType,
    foodName: string,
    description: string,
    quantity: real,
    quantityUnit: QuantityUnit,
    expiryTime: Time,
    pickupLocation: Location,
    pickupStartTime: Time,
    pickupEndTime: Time,
    imageUrl: string,
    status: DonationStatus,
    specialInstructions: string,
    allergens: seq<string>,
    isVegetarian: bool,
    isVegan: bool,
    createdAt: Time,
    updatedAt: Time)

  /** The validators that are not already enforced by the enumerations:
      `foodName` is stored trimmed and is required, `quantity` has `min: 1`,
      and the pickup address is required. */
  predicate ValidDonation(d: Donation) {
    && d.foodName != "" && Trimmed(d.foodName)
    && d.quantity >= 1.0
    && d.pickupLocation.address != ""
  }

  /** The `pre("save")` hook: every `save()` stamps `updatedAt`. */
  function Touch(d: Donation, now: Time): Donation {
    d.(updatedAt := now)
  }

  /** A record built by `new Donation(...)` with every path the caller left out
      set to its schema default. The defaults a caller passes explicitly
      (`description || ""` and so on) are applied by the caller. */
  function NewDonation(
    donorId: Id, foodType: FoodType, foodName: string, description: string, quantity: real,
    unit: QuantityUnit, expiryTime: Time, location: Location, startTime: Time, endTime: Time,
    imageUrl: string, instructions: string, allergens: seq<string>, vegetarian: bool, vegan: bool,
    now: Time): (d: Donation)
    ensures d.status == Available
    ensures d.createdAt == now && d.updatedAt == now
    ensures d.foodName == Trim(foodName)
  {
    Donation(donorId, foodType, Trim(foodName), description, quantity, unit, expiryTime, location,
             startTime, endTime, imageUrl, Available, instructions, allergens, vegetarian, vegan,
             now, now)
  }
}
