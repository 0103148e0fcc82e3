/**
  The order form: the six numeric inputs, the five single-select inputs,
  their option lists and bounds, and the names the encoder gives them.
 */
module OrderForm {
  import opened Values

  /** One submission of the form, as the widgets return it. */
  datatype RawOrder = RawOrder(
    orderAmount: real,
    numberOfItems: int,
    distanceKm: real,
    customerRating: real,
    previousCancellations: int,
    deliveryDurationMin: int,
    deliveryType: string,
    paymentMethod: string,
    dayOfWeek: string,
    restaurant: string,
    city: string)

  /** The numeric inputs, each copied into the features under its own name. */
  datatype Measure =
    | OrderAmount | NumberOfItems | DistanceKm
    | CustomerRating | PreviousCancellations | DeliveryDurationMin

  /** The single-select inputs, each one-hot encoded. */
  datatype Field = DeliveryType | PaymentMethod | DayOfWeek | Restaurant | City

  /** The canonical column name of a numeric input. */
  function Name(m: Measure): string {
    match m
    case OrderAmount => "order_amount"
    case NumberOfItems => "number_of_items"
    case DistanceKm => "distance_km"
    case CustomerRating => "customer_rating"
    case PreviousCancellations => "previous_cancellations"
    case DeliveryDurationMin => "delivery_duration_min"
  }

  /** The value a numeric input contributes: integer widgets give ints, the others floats. */
  function Reading(o: RawOrder, m: Measure): Value {
    match m
    case OrderAmount => Float(o.orderAmount)
    case NumberOfItems => Int(o.numberOfItems)
    case DistanceKm => Float(o.distanceKm)
    case CustomerRating => Float(o.customerRating)
    case PreviousCancellations => Int(o.previousCancellations)
    case DeliveryDurationMin => Int(o.deliveryDurationMin)
  }

  /** The selection the user made for a single-select input. */
  function Selected(o: RawOrder, f: Field): string {
    match f
    case DeliveryType => o.deliveryType
    case PaymentMethod => o.paymentMethod
    case DayOfWeek => o.dayOfWeek
    case Restaurant => o.restaurant
    case City => o.city
  }

  /** The `{field}_` part of a field's indicator columns: category `c` is column `Prefix(f) + c`. */
  function Prefix(f: Field): string {
    match f
    case DeliveryType => "delivery_type_"
    case PaymentMethod => "payment_method_"
    case DayOfWeek => "day_of_week_"
    case Restaurant => "restaurant_"
    case City => "city_"
  }

  /** The options the select box offers, in display order. */
  function Options(f: Field): seq<string> {
    match f
    case DeliveryType => ["home delivery", "pick-up"]
    case PaymentMethod => ["cash", "debit card", "credit card", "apple pay", "other"]
    case DayOfWeek => ["Mon", "Tue", "Wed", "Thu", "Fri", "Sat", "Sun"]
    case Restaurant => ["Chipotle", "Dominos", "McDonalds", "PizzaHut", "Subway", "TacoBell"]
    case City => ["Houston", "Los Angeles", "New York", "Philadelphia", "Phoenix", "San Antonio"]
  }

  /**
    The categories that get an indicator column, in the order they are
    written. Delivery type keeps only "home delivery" and payment method
    drops "cash": those are the reference categories of drop-first encoding.
   */
  function Categories(f: Field): seq<string> {
    match f
    case DeliveryType => ["home delivery"]
    case PaymentMethod => ["debit card", "credit card", "apple pay", "other"]
    case DayOfWeek => ["Mon", "Tue", "Wed", "Thu", "Fri", "Sat", "Sun"]
    case Restaurant => ["Chipotle", "Dominos", "McDonalds", "PizzaHut", "Subway", "TacoBell"]
    case City => ["Houston", "Los Angeles", "New York", "Philadelphia", "Phoenix", "San Antonio"]
  }

  predicate Distinct(s: seq<string>) {
    forall i, j :: 0 <= i < j < |s| ==> s[i] != s[j]
  }

  /** The numeric bounds and option lists the widgets enforce. */
  predicate Valid(o: RawOrder) {
    && 0.0 <= o.orderAmount <= 500.0
    && 1 <= o.numberOfItems <= 50
    && 0.0 <= o.distanceKm <= 50.0
    && 1.0 <= o.customerRating <= 5.0
    && 0 <= o.previousCancellations <= 10
    && 1 <= o.deliveryDurationMin <= 200
    && Listed(o)
  }

  /** Every selection is one of its select box's options. */
  predicate Listed(o: RawOrder) {
    forall f: Field :: Selected(o, f) in Options(f)
  }

  /**
    Each field's options are its indicator categories plus at most one
    reference category that gets no column, and no option is listed twice.
   */
  lemma ReferenceCategories(f: Field)
    ensures Distinct(Options(f)) && Distinct(Categories(f))
    ensures forall c :: c in Categories(f) ==> c in Options(f)
    ensures f == DeliveryType ==> forall c :: c in Options(f) && c !in Categories(f) <==> c == "pick-up"
    ensures f == PaymentMethod ==> forall c :: c in Options(f) && c !in Categories(f) <==> c == "cash"
    ensures f !in {DeliveryType, PaymentMethod} ==> Options(f) == Categories(f)
  {
    match f
    case DeliveryType =>
    case PaymentMethod =>
    case DayOfWeek =>
    case Restaurant =>
    case City =>
  }
}
