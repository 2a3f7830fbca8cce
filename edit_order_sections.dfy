/**
 * The sections of the edit-order form: shipment (commodity, temperature and
 * the equipment and load-type selects), revenue (base price and currency)
 * and tax (amounts and notes). Each edit sets the field in the parent's
 * `formOrder` whatever the verdict and stores that field's first issue, or
 * "", in `errors`.
 */
module EditOrderSections {
  import opened Wrappers
  import opened Strings
  import opened Values
  import opened Patterns
  import opened Schema
  import opened Sections

  // EditOrderShipment

  const TemperatureMsg := "Enter a valid temperature (e.g., 5°C, -10F, 273K)"
  const EquipmentMsg := "Please select a valid equipment"
  const LoadTypeMsg := "Please select a valid load type"
  const EquipmentOptions := ["Dry Van 53'", "Flat Bed 53'", "Reefer 53'"]
  const LoadTypeOptions := ["Partial", "FTL", "LTL"]

  const TemperatureChecks := [MaxLen(10, "Temperature cannot exceed 10 characters"), Regex(Temperature, TemperatureMsg)]

  const ShipmentSchema := ObjectSchema(map[
    "commodity" := Rule(StringType([MaxLen(100, "Commodity cannot exceed 50 characters"),
                                    Regex(Star(General), GeneralCharsMsg)]), true),
    "temperature" := Rule(StringOrNumber(TemperatureChecks), true),
    "equipment" := Rule(EnumType(EquipmentOptions, EquipmentMsg), false),
    "load_type" := Rule(EnumType(LoadTypeOptions, LoadTypeMsg), false)
  ], None)

  class EditOrderShipment {
    var errors: map<string, string>
    /** The parent's `formOrder`, written through `setFormOrder`. */
    var formOrder: Record

    constructor(formOrder: Record)
      ensures this.formOrder == formOrder && errors == map[]
    {
      this.formOrder := formOrder;
      errors := map[];
    }

    /** `validateAndSetOrder(field, value)`: the value is stored as entered. */
    method ValidateAndSetOrder(field: string, value: Input)
      modifies this
      ensures formOrder == WithField(old(formOrder), field, InputVal(value))
      ensures errors == old(errors)[field := FieldError(ShipmentSchema, formOrder, field, NoEmail)]
    {
      formOrder := formOrder[field := InputVal(value)];
      errors := errors[field := FieldError(ShipmentSchema, formOrder, field, NoEmail)];
    }

    /** The equipment select sets the field directly: nothing is validated and no error changes. */
    method SelectEquipment(value: string)
      modifies this
      ensures formOrder == WithField(old(formOrder), "equipment", Str(value))
      ensures errors == old(errors)
    {
      formOrder := formOrder["equipment" := Str(value)];
    }

    /** The load-type select, likewise. */
    method SelectLoadType(value: string)
      modifies this
      ensures formOrder == WithField(old(formOrder), "load_type", Str(value))
      ensures errors == old(errors)
    {
      formOrder := formOrder["load_type" := Str(value)];
    }
  }

  /** A temperature typed as text is accepted exactly when it fits in 10 characters and matches the pattern. */
  lemma TemperatureErrorIff(order: Record, s: string, isEmail: string -> bool)
    ensures FieldError(ShipmentSchema, WithField(order, "temperature", Str(s)), "temperature", isEmail) == ""
            <==> |s| <= 10 && TemperatureMatch(s)
  {
    assert RuleOf(ShipmentSchema.shape, "temperature") == Some(Rule(StringOrNumber(TemperatureChecks), true));
    StringFieldError(ShipmentSchema, WithField(order, "temperature", Str(s)), "temperature", TemperatureChecks, true, isEmail);
    TemperatureChecksPass(s, isEmail);
  }

  lemma TemperatureChecksPass(s: string, isEmail: string -> bool)
    ensures (forall i :: 0 <= i < |TemperatureChecks| ==> StrCheckPasses(TemperatureChecks[i], s, isEmail))
            <==> |s| <= 10 && TemperatureMatch(s)
  {
    assert StrCheckPasses(TemperatureChecks[0], s, isEmail) <==> |s| <= 10;
    assert StrCheckPasses(TemperatureChecks[1], s, isEmail) <==> TemperatureMatch(s);
  }

  /** A temperature held as a number always passes. */
  lemma NumericTemperatureAccepted(order: Record, n: int, isEmail: string -> bool)
    ensures FieldError(ShipmentSchema, WithField(order, "temperature", Num(n)), "temperature", isEmail) == ""
  {
    UnionFieldAcceptsNumbers(ShipmentSchema, WithField(order, "temperature", Num(n)), "temperature", TemperatureChecks, true, isEmail);
  }

  /** The first example the message itself gives, "5°C", is reported as invalid. */
  lemma MessageExampleRejected(order: Record, isEmail: string -> bool)
    ensures FieldError(ShipmentSchema, WithField(order, "temperature", Str("5°C")), "temperature", isEmail) == TemperatureMsg
  {
    DegreeAndLetterRejected();
    StringFieldFirstIssue(ShipmentSchema, WithField(order, "temperature", Str("5°C")), "temperature", TemperatureChecks, true, isEmail, 1);
  }

  /** Equipment outside the three trailer types, missing equipment included, gets the one enum message. */
  lemma EquipmentError(order: Record, isEmail: string -> bool)
    ensures FieldError(ShipmentSchema, order, "equipment", isEmail)
            == if Get(order, "equipment").Str? && Get(order, "equipment").s in EquipmentOptions then "" else EquipmentMsg
  {
    EnumFieldError(ShipmentSchema, order, "equipment", EquipmentOptions, EquipmentMsg, false, isEmail);
  }

  lemma LoadTypeError(order: Record, isEmail: string -> bool)
    ensures FieldError(ShipmentSchema, order, "load_type", isEmail)
            == if Get(order, "load_type").Str? && Get(order, "load_type").s in LoadTypeOptions then "" else LoadTypeMsg
  {
    EnumFieldError(ShipmentSchema, order, "load_type", LoadTypeOptions, LoadTypeMsg, false, isEmail);
  }

  // EditOrderRevenue

  const BasePriceMsg := "Enter a valid amount (e.g., 1000, 1,000.50)"
  const CurrencyMsg := "Please select a valid currency"
  const BasePriceChecks := [MaxLen(20, "Base price cannot exceed 15 characters"), Regex(GroupedAmount, BasePriceMsg)]

  const RevenueSchema := ObjectSchema(map[
    "base_price" := Rule(StringType(BasePriceChecks), true),
    "currency" := Rule(EnumType(["CAD", "USD"], CurrencyMsg), true)
  ], None)

  class EditOrderRevenue {
    var errors: map<string, string>
    var formOrder: Record

    constructor(formOrder: Record)
      ensures this.formOrder == formOrder && errors == map[]
    {
      this.formOrder := formOrder;
      errors := map[];
    }

    method ValidateAndSetOrder(field: string, value: Input)
      modifies this
      ensures formOrder == WithField(old(formOrder), field, InputVal(value))
      ensures errors == old(errors)[field := FieldError(RevenueSchema, formOrder, field, NoEmail)]
    {
      formOrder := formOrder[field := InputVal(value)];
      errors := errors[field := FieldError(RevenueSchema, formOrder, field, NoEmail)];
    }

    /** The currency select sets the field directly, without validation. */
    method SelectCurrency(value: string)
      modifies this
      ensures formOrder == WithField(old(formOrder), "currency", Str(value))
      ensures errors == old(errors)
    {
      formOrder := formOrder["currency" := Str(value)];
    }
  }

  /** A base price is accepted exactly when it is comma-grouped with at most two decimals, within 20 characters. */
  lemma BasePriceErrorIff(order: Record, s: string, isEmail: string -> bool)
    ensures FieldError(RevenueSchema, WithField(order, "base_price", Str(s)), "base_price", isEmail) == ""
            <==> |s| <= 20 && GroupedAmountMatch(s)
  {
    assert RuleOf(RevenueSchema.shape, "base_price") == Some(Rule(StringType(BasePriceChecks), true));
    StringFieldError(RevenueSchema, WithField(order, "base_price", Str(s)), "base_price", BasePriceChecks, true, isEmail);
    assert StrCheckPasses(BasePriceChecks[0], s, isEmail) <==> |s| <= 20;
    assert StrCheckPasses(BasePriceChecks[1], s, isEmail) <==> GroupedAmountMatch(s);
  }

  /** An ungrouped number of four or more digits, such as the message's own "1000", is reported. */
  lemma UngroupedBasePriceRejected(order: Record, s: string, isEmail: string -> bool)
    requires 4 <= |s| <= 20 && AllDigits(s)
    ensures FieldError(RevenueSchema, WithField(order, "base_price", Str(s)), "base_price", isEmail) == BasePriceMsg
  {
    UngroupedThousandRejected(s);
    StringFieldFirstIssue(RevenueSchema, WithField(order, "base_price", Str(s)), "base_price", BasePriceChecks, true, isEmail, 1);
  }

  lemma BasePriceExamples(order: Record, isEmail: string -> bool)
    ensures FieldError(RevenueSchema, WithField(order, "base_price", Str("1000")), "base_price", isEmail) == BasePriceMsg
    ensures FieldError(RevenueSchema, WithField(order, "base_price", Str("1,000.50")), "base_price", isEmail) == ""
  {
    UngroupedBasePriceRejected(order, "1000", isEmail);
    GroupedAmountExamples();
    BasePriceErrorIff(order, "1,000.50", isEmail);
  }

  /** The currency may be absent; when present it must be CAD or USD. */
  lemma RevenueCurrencyError(order: Record, isEmail: string -> bool)
    ensures FieldError(RevenueSchema, order, "currency", isEmail)
            == if Get(order, "currency") == Undefined || Get(order, "currency") == Str("CAD") || Get(order, "currency") == Str("USD")
               then "" else CurrencyMsg
  {
    EnumFieldError(RevenueSchema, order, "currency", ["CAD", "USD"], CurrencyMsg, true, isEmail);
  }

  // EditOrderTax

  const TaxSchema := ObjectSchema(map[
    "base_price" := Rule(StringType([Regex(Decimal2, "Enter a valid price (e.g., 100.50)")]), true),
    "gst" := Rule(StringType([Regex(Decimal2, "Enter a valid GST amount (e.g., 5.00)")]), true),
    "pst" := Rule(StringType([Regex(Decimal2, "Enter a valid PST amount (e.g., 7.50)")]), true),
    "hst" := Rule(StringType([Regex(Decimal2, "Enter a valid HST amount (e.g., 13.00)")]), true),
    "qst" := Rule(StringType([Regex(Decimal2, "Enter a valid QST amount (e.g., 9.97)")]), true),
    "final_price" := Rule(StringType([Regex(Decimal2, "Enter a valid price (e.g., 150.75)")]), true),
    "notes" := Rule(StringType([MaxLen(500, "Notes cannot exceed 500 characters"), Regex(Star(Street), "Invalid notes format")]), true)
  ], None)

  predicate IsTaxAmount(field: string) {
    field == "base_price" || field == "gst" || field == "pst" || field == "hst" || field == "qst" || field == "final_price"
  }

  class EditOrderTax {
    var errors: map<string, string>
    var formOrder: Record

    constructor(formOrder: Record)
      ensures this.formOrder == formOrder && errors == map[]
    {
      this.formOrder := formOrder;
      errors := map[];
    }

    /** `validateAndSetOrder(field, value)`: the trimmed value is stored and validated. */
    method ValidateAndSetOrder(field: string, value: string)
      modifies this`formOrder, this`errors
      ensures formOrder == WithField(old(formOrder), field, Str(Trim(value)))
      ensures errors == old(errors)[field := FieldError(TaxSchema, formOrder, field, NoEmail)]
    {
      var trimmed := Trim(value);
      var t := WithField(formOrder, field, Str(trimmed));
      var e := FieldError(TaxSchema, t, field, NoEmail);
      formOrder := t;
      errors := errors[field := e];
    }
  }

  /** Each amount of the tax section is accepted exactly when it is digits with at most two decimals. */
  lemma TaxAmountErrorIff(order: Record, field: string, s: string, isEmail: string -> bool)
    requires IsTaxAmount(field)
    ensures FieldError(TaxSchema, WithField(order, field, Str(s)), field, isEmail) == "" <==> Decimal2Match(s)
  {
    var rule := TaxSchema.shape[field];
    assert rule.t.StringType? && |rule.t.checks| == 1 && rule.t.checks[0].Regex? && rule.t.checks[0].p == Decimal2;
    StringFieldError(TaxSchema, WithField(order, field, Str(s)), field, rule.t.checks, true, isEmail);
  }

  /** So an emptied amount is reported. */
  lemma EmptyTaxAmountRejected(order: Record, field: string, isEmail: string -> bool)
    requires IsTaxAmount(field)
    ensures FieldError(TaxSchema, WithField(order, field, Str("")), field, isEmail) != ""
  {
    TaxAmountErrorIff(order, field, "", isEmail);
  }

  /** Notes are accepted exactly when they have at most 500 characters of letters, digits, white space and `,.'-`. */
  lemma TaxNotesErrorIff(order: Record, s: string, isEmail: string -> bool)
    ensures FieldError(TaxSchema, WithField(order, "notes", Str(s)), "notes", isEmail) == "" <==> |s| <= 500 && AllIn(s, Street)
  {
    var checks := [MaxLen(500, "Notes cannot exceed 500 characters"), Regex(Star(Street), "Invalid notes format")];
    StringFieldError(TaxSchema, WithField(order, "notes", Str(s)), "notes", checks, true, isEmail);
    assert StrCheckPasses(checks[0], s, isEmail) <==> |s| <= 500;
    assert StrCheckPasses(checks[1], s, isEmail) <==> AllIn(s, Street);
  }

  /** White space typed around an entry is neither stored nor judged: the edit is the same as without it. */
  lemma TaxEditIgnoresPadding(w1: string, a: string, w2: string)
    requires AllSpace(w1) && AllSpace(w2)
    requires a == [] || (!IsSpace(a[0]) && !IsSpace(a[|a| - 1]))
    ensures Trim(w1 + a + w2) == Trim(a) == a
  {
    TrimPadded(w1, a, w2);
    TrimIdentity(a);
  }
}
