/**
 * The sections of the add-order form: a destination row, a charge row, a
 * discount row, the general section and the load specifications. Each edit
 * builds the edited row or draft, stores in `errors[field]` the first issue
 * the section's schema reports for that field (or ""), and hands the edited
 * value on whatever the verdict.
 */
module OrderForms {
  import opened Wrappers
  import opened Strings
  import opened Values
  import opened Patterns
  import opened Schema
  import opened Sections

  /** `rows[index] ?? {}`: the row a section edits. */
  function RowAt(rows: seq<Record>, index: int): Record {
    if 0 <= index < |rows| then rows[index] else map[]
  }

  // OrderDestination

  const PackagesMin := "Packages must be at least 1"
  const PackagesMax := "Packages cannot exceed 99,999"
  const WeightMin := "Weight cannot be negative"
  const WeightMax := "Weight cannot exceed 1,000,000 kg"

  const PackagesChecks := [MinNum(1, PackagesMin), MaxNum(99999, PackagesMax)]
  const WeightChecks := [MinNum(0, WeightMin), MaxNum(1000000, WeightMax)]

  const DestinationSchema := ObjectSchema(map[
    "address" := Rule(StringType([MaxLen(255, "Address is too long"), Regex(Plus(Street), "Invalid address format")]), true),
    "city" := Rule(StringType([MaxLen(100, "City name is too long"), Regex(Plus(Place), "Invalid city format")]), true),
    "state" := Rule(StringType([MaxLen(100, "State name is too long"), Regex(Plus(Place), "Invalid state format")]), true),
    "country" := Rule(StringType([MaxLen(100, "Country name is too long"), Regex(Plus(Place), "Invalid country format")]), true),
    "postal" := Rule(StringType([MaxLen(20, "Postal code cannot exceed 20 characters"), Regex(Plus(Postal), "Invalid postal code format")]), true),
    "phone" := Rule(StringType([MaxLen(30, "Phone number cannot exceed 30 characters"), Regex(Plus(Phone), "Invalid phone number format")]), true),
    "date" := Rule(StringType([Regex(DayMonthYear, "Date must be in DD-MM-YYYY format")]), true),
    "time" := Rule(StringType([Regex(HourMinute, "Time must be in HH:MM format (24-hour)")]), true),
    "currency" := Rule(StringType([MaxLen(10, "Currency code cannot exceed 10 characters"), Regex(ThreeUpper, "Invalid currency format (e.g., USD, EUR)")]), true),
    "equipment" := Rule(StringType([MaxLen(50, "Equipment description cannot exceed 50 characters"), Regex(Plus(Postal), "Invalid equipment format")]), true),
    "pickup_po" := Rule(StringType([MaxLen(50, "Pickup PO cannot exceed 50 characters"), Regex(Plus(Postal), "Invalid pickup PO format")]), true),
    "packages" := Rule(NumberType(PackagesChecks), true),
    "weight" := Rule(NumberType(WeightChecks), true),
    "dimensions" := Rule(StringType([MaxLen(50, "Dimensions cannot exceed 50 characters"), Regex(Dimensions, "Invalid dimensions format (e.g., 10x20x30)")]), true),
    "notes" := Rule(StringType([MaxLen(500, "Notes cannot exceed 500 characters")]), true)
  ], None)

  /** `packages` and `weight` are read with `Number`, the empty entry as 0; every other field keeps the sanitised text. */
  function DestinationValue(field: string, sanitized: string): (v: Val)
    ensures field != "packages" && field != "weight" ==> v == Str(sanitized)
    ensures (field == "packages" || field == "weight") ==> v.Num? || v.NaN?
  {
    if field == "packages" || field == "weight" then
      (if sanitized != "" then ToNumber(sanitized) else Num(0))
    else Str(sanitized)
  }

  /**
   * `prev.destination_location.map((loc, i) => i === index ? {...loc, <place fields>} : loc)`:
   * only the location at index changes, and in it only the five address fields.
   */
  function PlaceAt(locs: seq<Val>, index: int, components: Option<seq<AddressComponent>>): (r: seq<Val>)
    ensures |r| == |locs|
    ensures forall i :: 0 <= i < |locs| && i != index ==> r[i] == locs[i]
    ensures 0 <= index < |locs| ==> r[index] == Obj(SetPlaceFields(Spread(locs[index]), "", components))
  {
    if 0 <= index < |locs| then
      var placed := Obj(SetPlaceFields(Spread(locs[index]), "", components));
      seq(|locs|, i requires 0 <= i < |locs| => if i == index then placed else locs[i])
    else locs
  }

  /** `{...loc, <place fields>}`: the five unprefixed keys get their components, every other key of loc stays. */
  lemma PlacedLocation(loc: Val, components: Option<seq<AddressComponent>>)
    ensures var o := Obj(SetPlaceFields(Spread(loc), "", components));
            && Prop(o, "address") == Str(StreetLine(components))
            && Prop(o, "city") == Str(GetComponent(components, "locality"))
            && Prop(o, "state") == Str(GetComponent(components, "administrative_area_level_1"))
            && Prop(o, "country") == Str(GetComponent(components, "country"))
            && Prop(o, "postal") == Str(GetComponent(components, "postal_code"))
            && forall k :: k != "address" && k != "city" && k != "state" && k != "country" && k != "postal" ==>
                 Prop(o, k) == Get(Spread(loc), k)
  {
    assert "" + "address" == "address" && "" + "city" == "city" && "" + "state" == "state"
           && "" + "country" == "country" && "" + "postal" == "postal";
    SetPlaceFieldsSpec(Spread(loc), "", components);
  }

  class OrderDestination {
    /** The position of this destination in `destination_location`. */
    const index: int
    /** `DOMPurify.sanitize`. */
    const sanitize: string -> string
    var errors: map<string, string>
    /** The parent's order, which the autocomplete writes through `setOrder`. */
    var order: Record

    constructor(index: int, sanitize: string -> string, order: Record)
      ensures this.index == index && this.sanitize == sanitize && this.order == order && errors == map[]
    {
      this.index := index;
      this.sanitize := sanitize;
      this.order := order;
      errors := map[];
    }

    /**
     * `validateAndSetDestination(field, value)` over the parent's rows: the
     * edited row, which is forwarded to `handleDestinationChange(index, row)`
     * whether or not it is valid, and the field's error.
     */
    method ValidateAndSetDestination(rows: seq<Record>, field: string, value: string) returns (forwarded: Record)
      modifies this
      ensures forwarded == WithField(RowAt(rows, index), field, DestinationValue(field, sanitize(value)))
      ensures errors == old(errors)[field := FieldError(DestinationSchema, forwarded, field, NoEmail)]
      ensures order == old(order)
    {
      var parsed := DestinationValue(field, sanitize(value));
      forwarded := RowAt(rows, index)[field := parsed];
      errors := errors[field := FieldError(DestinationSchema, forwarded, field, NoEmail)];
    }

    /** `updateAddressFields(place)`: fills the address of this destination from the place's components. */
    method UpdateAddressFields(components: Option<seq<AddressComponent>>)
      requires IsArrayAt(order, "destination_location")
      modifies this
      ensures order == old(order)["destination_location" := Arr(PlaceAt(old(order)["destination_location"].items, index, components))]
      ensures errors == old(errors)
    {
      order := order["destination_location" := Arr(PlaceAt(order["destination_location"].items, index, components))];
    }
  }

  /** A packages count is accepted exactly in 1..99999; below and above, the matching message is stored. */
  lemma PackagesError(row: Record, n: int, isEmail: string -> bool)
    ensures FieldError(DestinationSchema, WithField(row, "packages", Num(n)), "packages", isEmail)
            == if n < 1 then PackagesMin else if n > 99999 then PackagesMax else ""
  {
    RangeFieldError(DestinationSchema, WithField(row, "packages", Num(n)), "packages", 1, PackagesMin, 99999, PackagesMax, true, isEmail);
  }

  /** An empty packages entry is read as 0 and reported as below the minimum. */
  lemma EmptyPackagesRejected(row: Record, isEmail: string -> bool)
    ensures FieldError(DestinationSchema, WithField(row, "packages", DestinationValue("packages", "")), "packages", isEmail) == PackagesMin
  {
    PackagesError(row, 0, isEmail);
  }

  /** A weight is accepted exactly in 0..1,000,000. */
  lemma WeightError(row: Record, n: int, isEmail: string -> bool)
    ensures FieldError(DestinationSchema, WithField(row, "weight", Num(n)), "weight", isEmail)
            == if n < 0 then WeightMin else if n > 1000000 then WeightMax else ""
  {
    RangeFieldError(DestinationSchema, WithField(row, "weight", Num(n)), "weight", 0, WeightMin, 1000000, WeightMax, true, isEmail);
  }

  /** A NaN quantity is the wrong type for zod. */
  lemma NaNQuantityRejected(row: Record, field: string, isEmail: string -> bool)
    requires field == "packages" || field == "weight"
    ensures FieldError(DestinationSchema, WithField(row, field, NaN), field, isEmail) == "Expected number, received nan"
  {
    var r := WithField(row, field, NaN);
    QuantityRules();
    if field == "packages" {
      NumberFieldWrongType(DestinationSchema, r, field, PackagesChecks, true, isEmail);
    } else {
      NumberFieldWrongType(DestinationSchema, r, field, WeightChecks, true, isEmail);
    }
    NaNForNumber();
  }

  lemma NaNForNumber()
    ensures TypeIssue("number", NaN) == "Expected number, received nan"
  {
    assert TypeName(NaN) == "nan";
  }

  lemma QuantityRules()
    ensures RuleOf(DestinationSchema.shape, "packages") == Some(Rule(NumberType(PackagesChecks), true))
    ensures RuleOf(DestinationSchema.shape, "weight") == Some(Rule(NumberType(WeightChecks), true))
  {
  }

  /**
   * Text holding a character no JavaScript number uses (such as "12#" or
   * "5 kg!") is a NaN, which zod rejects as the wrong type.
   */
  lemma NonNumericQuantityRejected(row: Record, field: string, s: string, isEmail: string -> bool)
    requires field == "packages" || field == "weight"
    requires exists i :: 0 <= i < |s| && IsNumberForeign(s[i])
    ensures FieldError(DestinationSchema, WithField(row, field, DestinationValue(field, s)), field, isEmail)
            == "Expected number, received nan"
  {
    var i :| 0 <= i < |s| && IsNumberForeign(s[i]);
    ForeignCharIsNaN(s, i);
    assert DestinationValue(field, s) == NaN;
    NaNQuantityRejected(row, field, isEmail);
  }

  lemma NonNumericExample(row: Record, isEmail: string -> bool)
    ensures FieldError(DestinationSchema, WithField(row, "packages", DestinationValue("packages", "ten")), "packages", isEmail)
            == "Expected number, received nan"
  {
    ToNumberOfWord("ten");
    assert DestinationValue("packages", "ten") == NaN;
    NaNQuantityRejected(row, "packages", isEmail);
  }

  /** The address-like text fields of a destination need at least one character: "" gets the pattern's message. */
  lemma DestinationTextRejectsEmpty(row: Record, field: string, max: nat, maxMsg: string, k: CharClass, msg: string, isEmail: string -> bool)
    requires RuleOf(DestinationSchema.shape, field) == Some(Rule(StringType([MaxLen(max, maxMsg), Regex(Plus(k), msg)]), true))
    ensures FieldError(DestinationSchema, WithField(row, field, Str("")), field, isEmail) == msg
  {
    StringFieldFirstIssue(DestinationSchema, WithField(row, field, Str("")), field, [MaxLen(max, maxMsg), Regex(Plus(k), msg)], true, isEmail, 1);
  }

  /** Address, city, state, country, postal, phone, equipment and pickup PO are such fields. */
  lemma DestinationTextFields()
    ensures RuleOf(DestinationSchema.shape, "address") == Some(Rule(StringType([MaxLen(255, "Address is too long"), Regex(Plus(Street), "Invalid address format")]), true))
    ensures RuleOf(DestinationSchema.shape, "city") == Some(Rule(StringType([MaxLen(100, "City name is too long"), Regex(Plus(Place), "Invalid city format")]), true))
    ensures RuleOf(DestinationSchema.shape, "state") == Some(Rule(StringType([MaxLen(100, "State name is too long"), Regex(Plus(Place), "Invalid state format")]), true))
    ensures RuleOf(DestinationSchema.shape, "country") == Some(Rule(StringType([MaxLen(100, "Country name is too long"), Regex(Plus(Place), "Invalid country format")]), true))
    ensures RuleOf(DestinationSchema.shape, "postal") == Some(Rule(StringType([MaxLen(20, "Postal code cannot exceed 20 characters"), Regex(Plus(Postal), "Invalid postal code format")]), true))
    ensures RuleOf(DestinationSchema.shape, "phone") == Some(Rule(StringType([MaxLen(30, "Phone number cannot exceed 30 characters"), Regex(Plus(Phone), "Invalid phone number format")]), true))
    ensures RuleOf(DestinationSchema.shape, "equipment") == Some(Rule(StringType([MaxLen(50, "Equipment description cannot exceed 50 characters"), Regex(Plus(Postal), "Invalid equipment format")]), true))
    ensures RuleOf(DestinationSchema.shape, "pickup_po") == Some(Rule(StringType([MaxLen(50, "Pickup PO cannot exceed 50 characters"), Regex(Plus(Postal), "Invalid pickup PO format")]), true))
  {
  }

  /** The date is accepted exactly when it is DD-MM-YYYY. */
  lemma DateErrorIff(row: Record, s: string, isEmail: string -> bool)
    ensures FieldError(DestinationSchema, WithField(row, "date", Str(s)), "date", isEmail) == "" <==> DayMonthYearMatch(s)
  {
    StringFieldError(DestinationSchema, WithField(row, "date", Str(s)), "date", [Regex(DayMonthYear, "Date must be in DD-MM-YYYY format")], true, isEmail);
  }

  /** The time is accepted exactly when it is a 24-hour HH:MM. */
  lemma TimeErrorIff(row: Record, s: string, isEmail: string -> bool)
    ensures FieldError(DestinationSchema, WithField(row, "time", Str(s)), "time", isEmail) == "" <==> HourMinuteMatch(s)
  {
    StringFieldError(DestinationSchema, WithField(row, "time", Str(s)), "time", [Regex(HourMinute, "Time must be in HH:MM format (24-hour)")], true, isEmail);
  }

  /** The currency is accepted exactly when it is three capital letters. */
  lemma CurrencyErrorIff(row: Record, s: string, isEmail: string -> bool)
    ensures FieldError(DestinationSchema, WithField(row, "currency", Str(s)), "currency", isEmail) == "" <==> ThreeUpperMatch(s)
  {
    var checks := [MaxLen(10, "Currency code cannot exceed 10 characters"), Regex(ThreeUpper, "Invalid currency format (e.g., USD, EUR)")];
    StringFieldError(DestinationSchema, WithField(row, "currency", Str(s)), "currency", checks, true, isEmail);
    assert StrCheckPasses(checks[1], s, NoEmail) ==> StrCheckPasses(checks[0], s, NoEmail);
  }

  /** The dimensions are accepted exactly when they are NxNxN within 50 characters. */
  lemma DimensionsErrorIff(row: Record, s: string, isEmail: string -> bool)
    ensures FieldError(DestinationSchema, WithField(row, "dimensions", Str(s)), "dimensions", isEmail) == "" <==> |s| <= 50 && DimensionsMatch(s)
  {
    var checks := [MaxLen(50, "Dimensions cannot exceed 50 characters"), Regex(Dimensions, "Invalid dimensions format (e.g., 10x20x30)")];
    StringFieldError(DestinationSchema, WithField(row, "dimensions", Str(s)), "dimensions", checks, true, isEmail);
    assert StrCheckPasses(checks[0], s, isEmail) <==> |s| <= 50;
    assert StrCheckPasses(checks[1], s, isEmail) <==> DimensionsMatch(s);
  }

  // OrderCharges and OrderDiscounts

  const TypeRule := Rule(StringType([
    MaxLen(200, "Type must be at most 200 characters"),
    Regex(Plus(Wording), "Only letters, spaces, apostrophes, periods, commas, and hyphens are allowed")]), true)
  const AmountRule := Rule(StringType([
    MaxLen(30, "Charge value must be at most 30 characters"),
    Regex(Decimal2, "Charge must be a valid number (e.g., 100 or 100.50)")]), true)
  const PercentRule := Rule(StringType([
    MaxLen(30, "Percent/Flat Rate must be at most 30 characters"),
    Regex(FlatOrPercentage, "Value must be either \"Flat\" or \"Percentage\"")]), true)

  const ChargeSchema := ObjectSchema(map["type" := TypeRule, "charge" := AmountRule, "percent" := PercentRule], None)

  /** The discount schema declares the amount under `discount`, the key the row's amount input edits. */
  const DiscountSchema := ObjectSchema(map["type" := TypeRule, "discount" := AmountRule, "percent" := PercentRule], None)

  /** A charge or discount row: the row editor common to both sections. */
  class ChargeRow {
    const index: int
    const sanitize: string -> string
    /** ChargeSchema for OrderCharges, DiscountSchema for OrderDiscounts. */
    const schema: ObjectSchema
    var errors: map<string, string>

    constructor(index: int, sanitize: string -> string, schema: ObjectSchema)
      ensures this.index == index && this.sanitize == sanitize && this.schema == schema && errors == map[]
    {
      this.index := index;
      this.sanitize := sanitize;
      this.schema := schema;
      errors := map[];
    }

    /**
     * `validateAndSetCharge` / `validateAndSetDiscount`: the row with the
     * field set to the sanitised text, always forwarded to the parent's change
     * handler, and the field's error.
     */
    method ValidateAndSet(rows: seq<Record>, field: string, value: string) returns (forwarded: Record)
      modifies this
      ensures forwarded == WithField(RowAt(rows, index), field, Str(sanitize(value)))
      ensures errors == old(errors)[field := FieldError(schema, forwarded, field, NoEmail)]
    {
      forwarded := RowAt(rows, index)[field := Str(sanitize(value))];
      errors := errors[field := FieldError(schema, forwarded, field, NoEmail)];
    }
  }

  /** A charge or discount type needs at least one letter, space or `.,'-` character. */
  lemma ChargeTypeErrorIff(schema: ObjectSchema, row: Record, s: string, isEmail: string -> bool)
    requires schema == ChargeSchema || schema == DiscountSchema
    ensures FieldError(schema, WithField(row, "type", Str(s)), "type", isEmail) == "" <==> 0 < |s| <= 200 && AllIn(s, Wording)
  {
    assert RuleOf(schema.shape, "type") == Some(TypeRule);
    StringFieldError(schema, WithField(row, "type", Str(s)), "type", TypeRule.t.checks, true, isEmail);
    assert StrCheckPasses(TypeRule.t.checks[0], s, isEmail) <==> |s| <= 200;
    assert StrCheckPasses(TypeRule.t.checks[1], s, isEmail) <==> 0 < |s| && AllIn(s, Wording);
  }

  /** A charge amount is accepted exactly when it is digits with at most two decimals, within 30 characters. */
  lemma ChargeAmountErrorIff(row: Record, s: string, isEmail: string -> bool)
    ensures FieldError(ChargeSchema, WithField(row, "charge", Str(s)), "charge", isEmail) == "" <==> |s| <= 30 && Decimal2Match(s)
  {
    assert RuleOf(ChargeSchema.shape, "charge") == Some(AmountRule);
    StringFieldError(ChargeSchema, WithField(row, "charge", Str(s)), "charge", AmountRule.t.checks, true, isEmail);
    assert StrCheckPasses(AmountRule.t.checks[0], s, isEmail) <==> |s| <= 30;
    assert StrCheckPasses(AmountRule.t.checks[1], s, isEmail) <==> Decimal2Match(s);
  }

  /** The discount amount follows the same rule, under the key `discount`. */
  lemma DiscountAmountErrorIff(row: Record, s: string, isEmail: string -> bool)
    ensures FieldError(DiscountSchema, WithField(row, "discount", Str(s)), "discount", isEmail) == "" <==> |s| <= 30 && Decimal2Match(s)
  {
    assert RuleOf(DiscountSchema.shape, "discount") == Some(AmountRule);
    StringFieldError(DiscountSchema, WithField(row, "discount", Str(s)), "discount", AmountRule.t.checks, true, isEmail);
    assert StrCheckPasses(AmountRule.t.checks[0], s, isEmail) <==> |s| <= 30;
    assert StrCheckPasses(AmountRule.t.checks[1], s, isEmail) <==> Decimal2Match(s);
  }

  /**
   * The discount schema has no `charge` key, so whatever a discount row holds
   * under `charge` is never reported.
   */
  lemma DiscountIgnoresCharge(row: Record, isEmail: string -> bool)
    ensures FieldError(DiscountSchema, row, "charge", isEmail) == ""
  {
    UndeclaredFieldHasNoError(DiscountSchema, row, "charge", isEmail);
  }

  /** The rate is accepted exactly when it is "", "Flat" or "Percentage". */
  lemma PercentErrorIff(schema: ObjectSchema, row: Record, s: string, isEmail: string -> bool)
    requires schema == ChargeSchema || schema == DiscountSchema
    ensures FieldError(schema, WithField(row, "percent", Str(s)), "percent", isEmail) == "" <==> s == "" || s == "Flat" || s == "Percentage"
  {
    StringFieldError(schema, WithField(row, "percent", Str(s)), "percent", PercentRule.t.checks, true, isEmail);
    assert StrCheckPasses(PercentRule.t.checks[1], s, isEmail) ==> StrCheckPasses(PercentRule.t.checks[0], s, isEmail);
  }

  // OrderGeneral

  const CustomerRequired := "Customer is required"
  const CustomerRefRequired := "Customer Ref. No is required"

  const GeneralSchema := ObjectSchema(map[
    "branch" := Rule(StringType([MaxLen(150, "Branch cannot exceed 150 characters"), Regex(Star(General), GeneralCharsMsg)]), true),
    "booked_by" := Rule(StringType([MaxLen(100, "Booked By cannot exceed 100 characters"), Regex(Star(General), GeneralCharsMsg)]), true),
    "account_rep" := Rule(StringType([MaxLen(100, "Account Rep cannot exceed 100 characters"), Regex(Star(General), GeneralCharsMsg)]), true),
    "sales_rep" := Rule(StringType([MaxLen(100, "Sales Rep cannot exceed 100 characters"), Regex(Star(General), GeneralCharsMsg)]), true),
    "customer_po_no" := Rule(StringType([MaxLen(20, "Customer PO Number cannot exceed 20 characters"), Regex(Star(PoNumber), "Only letters, numbers, dashes, underscores, and slashes allowed")]), true),
    "customer" := Rule(StringType([MinLen(1, CustomerRequired), MaxLen(200, "Customer name cannot exceed 200 characters"), Regex(Plus(General), GeneralCharsMsg)]), false),
    "customer_ref_no" := Rule(StringType([MinLen(1, CustomerRefRequired), MaxLen(100, "Customer Ref. No cannot exceed 100 characters"), Regex(Plus(General), GeneralCharsMsg)]), false)
  ], None)

  class OrderGeneral {
    var errors: map<string, string>
    /** The parent's order, written through `setOrder`. */
    var order: Record
    /** The fetched customers as `{ value, label, refNo }`. */
    var customers: seq<CustomerOption>
    var customerRefNos: seq<SelectOption>

    constructor(order: Record)
      ensures this.order == order && errors == map[] && customers == [] && customerRefNos == []
    {
      this.order := order;
      errors := map[];
      customers := [];
      customerRefNos := [];
    }

    /** `validateAndSetOrder(field, value)`: the value is taken as entered, without sanitising. */
    method ValidateAndSetOrder(field: string, value: Input)
      modifies this
      ensures order == WithField(old(order), field, InputVal(value))
      ensures errors == old(errors)[field := FieldError(GeneralSchema, order, field, NoEmail)]
      ensures customers == old(customers) && customerRefNos == old(customerRefNos)
    {
      order := order[field := InputVal(value)];
      errors := errors[field := FieldError(GeneralSchema, order, field, NoEmail)];
    }

    /** The customer fetch: each customer as `{ value: cust_name, label: cust_name, refNo: cust_ref_no }`. */
    method LoadCustomers(fetched: seq<CustomerOption>)
      modifies this
      ensures customers == fetched
      ensures order == old(order) && errors == old(errors) && customerRefNos == old(customerRefNos)
    {
      customers := fetched;
    }

    /** The effect on `[order.customer, customers]`: the reference numbers offered for the chosen customer. */
    method RefreshCustomerRefNos()
      modifies this
      ensures customerRefNos == RefNoOptions(Get(order, "customer"), customers)
      ensures order == old(order) && errors == old(errors) && customers == old(customers)
    {
      customerRefNos := RefNoOptions(Get(order, "customer"), customers);
    }
  }

  /** An empty customer is reported as required, before the pattern that also rejects it. */
  lemma EmptyCustomerRequired(order: Record, isEmail: string -> bool)
    ensures FieldError(GeneralSchema, WithField(order, "customer", Str("")), "customer", isEmail) == CustomerRequired
    ensures FieldError(GeneralSchema, WithField(order, "customer_ref_no", Str("")), "customer_ref_no", isEmail) == CustomerRefRequired
  {
  }

  /** A customer name is accepted exactly when it has 1 to 200 characters of the general set. */
  lemma CustomerErrorIff(order: Record, s: string, isEmail: string -> bool)
    ensures FieldError(GeneralSchema, WithField(order, "customer", Str(s)), "customer", isEmail) == "" <==> 0 < |s| <= 200 && AllIn(s, General)
  {
    ThreeCheckError(GeneralSchema, WithField(order, "customer", Str(s)), "customer", MinLen(1, CustomerRequired),
                    MaxLen(200, "Customer name cannot exceed 200 characters"), Regex(Plus(General), GeneralCharsMsg), false, s, isEmail);
  }

  /** A missing customer is reported as "Required" (the wrong type), not by its length check. */
  lemma MissingCustomer(order: Record, field: string, isEmail: string -> bool)
    requires field !in order
    requires field == "customer" || field == "customer_ref_no"
    ensures FieldError(GeneralSchema, order, field, isEmail) == "Required"
  {
  }

  /** A field whose pattern allows the empty string and which has only a maximum length accepts "". */
  lemma OptionalTextAcceptsEmpty(order: Record, field: string, max: nat, maxMsg: string, k: CharClass, msg: string, isEmail: string -> bool)
    requires RuleOf(GeneralSchema.shape, field) == Some(Rule(StringType([MaxLen(max, maxMsg), Regex(Star(k), msg)]), true))
    ensures FieldError(GeneralSchema, WithField(order, field, Str("")), field, isEmail) == ""
  {
    StringFieldError(GeneralSchema, WithField(order, field, Str("")), field, [MaxLen(max, maxMsg), Regex(Star(k), msg)], true, isEmail);
  }

  /** Branch, booked by, account rep, sales rep and customer PO number are such fields. */
  lemma GeneralOptionalFields()
    ensures RuleOf(GeneralSchema.shape, "branch") == Some(Rule(StringType([MaxLen(150, "Branch cannot exceed 150 characters"), Regex(Star(General), GeneralCharsMsg)]), true))
    ensures RuleOf(GeneralSchema.shape, "booked_by") == Some(Rule(StringType([MaxLen(100, "Booked By cannot exceed 100 characters"), Regex(Star(General), GeneralCharsMsg)]), true))
    ensures RuleOf(GeneralSchema.shape, "account_rep") == Some(Rule(StringType([MaxLen(100, "Account Rep cannot exceed 100 characters"), Regex(Star(General), GeneralCharsMsg)]), true))
    ensures RuleOf(GeneralSchema.shape, "sales_rep") == Some(Rule(StringType([MaxLen(100, "Sales Rep cannot exceed 100 characters"), Regex(Star(General), GeneralCharsMsg)]), true))
    ensures RuleOf(GeneralSchema.shape, "customer_po_no") == Some(Rule(StringType([MaxLen(20, "Customer PO Number cannot exceed 20 characters"), Regex(Star(PoNumber), "Only letters, numbers, dashes, underscores, and slashes allowed")]), true))
  {
  }

  // OrderSpecs

  const SpecSchema := ObjectSchema(map[
    "hot" := Rule(BooleanType, true), "team" := Rule(BooleanType, true), "air_ride" := Rule(BooleanType, true),
    "tarp" := Rule(BooleanType, true), "hazmat" := Rule(BooleanType, true)
  ], None)

  predicate IsSpecFlag(field: string) {
    field == "hot" || field == "team" || field == "air_ride" || field == "tarp" || field == "hazmat"
  }

  /**
   * The value `validateAndSetSpecs` stores: a flag given as text becomes
   * `value === 'true'`, other text is sanitised, and a boolean is kept.
   */
  function SpecValue(field: string, value: Input, sanitize: string -> string): (v: Val)
    ensures IsSpecFlag(field) ==> v.Bool?
    ensures value.Checked? ==> v == Bool(value.b)
    ensures IsSpecFlag(field) && value.Text? ==> v == Bool(value.s == "true")
    ensures !IsSpecFlag(field) && value.Text? ==> v == Str(sanitize(value.s))
  {
    match value
    case Checked(b) => Bool(b)
    case Text(s) => if IsSpecFlag(field) then Bool(s == "true") else Str(sanitize(s))
  }

  class OrderSpecs {
    const sanitize: string -> string
    var errors: map<string, string>
    var order: Record

    constructor(sanitize: string -> string, order: Record)
      ensures this.sanitize == sanitize && this.order == order && errors == map[]
    {
      this.sanitize := sanitize;
      this.order := order;
      errors := map[];
    }

    method ValidateAndSetSpecs(field: string, value: Input)
      modifies this
      ensures order == WithField(old(order), field, SpecValue(field, value, sanitize))
      ensures errors == old(errors)[field := FieldError(SpecSchema, order, field, NoEmail)]
    {
      order := order[field := SpecValue(field, value, sanitize)];
      errors := errors[field := FieldError(SpecSchema, order, field, NoEmail)];
    }
  }

  /**
   * No edit of the specifications is ever reported: a flag always receives a
   * boolean, and every other field is not in the schema.
   */
  lemma SpecEditNeverReported(order: Record, field: string, value: Input, sanitize: string -> string, isEmail: string -> bool)
    ensures FieldError(SpecSchema, WithField(order, field, SpecValue(field, value, sanitize)), field, isEmail) == ""
  {
    if !IsSpecFlag(field) {
      UndeclaredFieldHasNoError(SpecSchema, WithField(order, field, SpecValue(field, value, sanitize)), field, isEmail);
    }
  }

  /** None of the order sections declares an e-mail check, so `NoEmail` stands for any e-mail test. */
  lemma DestinationEmailFree()
    ensures EmailFree(DestinationSchema)
  {
    forall k | k in DestinationSchema.shape
      ensures RuleEmailFree(DestinationSchema.shape[k])
    {
    }
  }

  lemma RowAndSectionSchemasEmailFree()
    ensures EmailFree(ChargeSchema) && EmailFree(DiscountSchema) && EmailFree(GeneralSchema) && EmailFree(SpecSchema)
  {
    ChargeEmailFree();
    DiscountEmailFree();
    GeneralEmailFree();
    SpecEmailFree();
  }

  lemma ChargeEmailFree()
    ensures EmailFree(ChargeSchema)
  {
    forall k | k in ChargeSchema.shape
      ensures RuleEmailFree(ChargeSchema.shape[k])
    {
    }
  }

  lemma DiscountEmailFree()
    ensures EmailFree(DiscountSchema)
  {
    forall k | k in DiscountSchema.shape
      ensures RuleEmailFree(DiscountSchema.shape[k])
    {
    }
  }

  lemma GeneralEmailFree()
    ensures EmailFree(GeneralSchema)
  {
    forall k | k in GeneralSchema.shape
      ensures RuleEmailFree(GeneralSchema.shape[k])
    {
    }
  }

  lemma SpecEmailFree()
    ensures EmailFree(SpecSchema)
  {
    forall k | k in SpecSchema.shape
      ensures RuleEmailFree(SpecSchema.shape[k])
    {
    }
  }
}
