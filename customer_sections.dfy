/**
 * The sections of the customer edit form: customer information, primary and
 * mailing address, accounts payable, custom broker and credit. Every section
 * edits the parent's draft customer (`formCustomer`): an edit writes the
 * field, stores the field's first schema issue (or "") in `errors[field]`,
 * and keeps the edited draft whatever the verdict.
 */
module CustomerSections {
  import opened Wrappers
  import opened Strings
  import opened Values
  import opened Patterns
  import opened Schema
  import opened Sections
  import opened Effects

  // Rules shared by several sections

  const StreetRule := Rule(StringType([MaxLen(255, "Address is too long"), Regex(Star(Street), "Invalid street format")]), true)
  const CityRule := Rule(StringType([MaxLen(200, "City name is too long"), Regex(Star(Place), "Invalid city format")]), true)
  const StateRule := Rule(StringType([MaxLen(200, "Invalid state"), Regex(Star(Place), "Invalid state format")]), true)
  const CountryRule := Rule(StringType([MaxLen(100, "Invalid country"), Regex(Star(Place), "Invalid country format")]), true)
  const PostalRule := Rule(StringType([MaxLen(20, "Postal code cannot exceed 20 characters"), Regex(Star(Postal), "Invalid postal code")]), true)
  const UnitNoRule := Rule(StringType([MaxLen(30, "Unit No cannot exceed 30 characters"),
                                       Regex(Star(UnitNo), "Only letters, numbers, #, hyphens, slashes, and spaces allowed")]), true)
  const PhoneExtRule := Rule(StringType([MaxLen(10, "Phone Ext cannot exceed 10 characters"),
                                         Regex(Star(Code), "Only letters, numbers, and hyphens allowed")]), true)
  const EmailRule := Rule(StringType([MaxLen(255, "Email cannot exceed 255 characters"), Email("Invalid email format")]), true)

  // CustomerInfo

  const CustomerTypeOptions := ["Manufacturer", "Trader", "Distributor", "Retailer", "Freight Forwarder"]
  const CustomerTypeMsg := "Invalid customer type"

  const CustomerInfoSchema := ObjectSchema(map[
    "cust_name" := Rule(StringType([MinLen(1, "Customer is required"), MaxLen(200, "Customer name cannot exceed 200 characters"),
                                    Regex(Plus(General), GeneralCharsMsg)]), false),
    "cust_ref_no" := Rule(StringType([MinLen(1, "Customer Ref. No is required"), MaxLen(100, "Customer Ref. No cannot exceed 100 characters"),
                                      Regex(Plus(General), GeneralCharsMsg)]), false),
    "cust_type" := Rule(EnumType(CustomerTypeOptions, CustomerTypeMsg), false),
    "cust_website" := Rule(StringType([MaxLen(150, "Branch cannot exceed 150 characters"), Regex(Star(General), GeneralCharsMsg)]), true),
    "cust_email" := EmailRule,
    "cust_contact_no" := Rule(StringType([MaxLen(30, "Contact no cannot exceed 30 characters"), Regex(Star(Phone), "Invalid phone format")]), true),
    "cust_contact_no_ext" := PhoneExtRule,
    "cust_tax_id" := Rule(StringType([MaxLen(20, "Tax ID cannot exceed 20 characters"),
                                      Regex(Star(TaxId), "Only letters, numbers, dashes, underscores, slashes, and spaces allowed")]), true)
  ], None)

  class CustomerInfo {
    /** zod's `.email()` test. */
    const isEmail: string -> bool
    var errors: map<string, string>
    /** The parent's draft customer, written through `setFormCustomer`. */
    var formCustomer: Record
    var customers: seq<CustomerOption>
    var customerRefNos: seq<SelectOption>

    constructor(isEmail: string -> bool, formCustomer: Record)
      ensures this.isEmail == isEmail && this.formCustomer == formCustomer
      ensures errors == map[] && customers == [] && customerRefNos == []
    {
      this.isEmail := isEmail;
      this.formCustomer := formCustomer;
      errors := map[];
      customers := [];
      customerRefNos := [];
    }

    /** The customer fetch: each customer as `{ value: cust_name, label: cust_name, refNo: cust_ref_no }`. */
    method LoadCustomers(fetched: seq<CustomerOption>)
      modifies this
      ensures customers == fetched
      ensures formCustomer == old(formCustomer) && errors == old(errors) && customerRefNos == old(customerRefNos)
    {
      customers := fetched;
    }

    /** The effect on `[formCustomer.cust_name, customers]`. */
    method RefreshCustomerRefNos()
      modifies this
      ensures customerRefNos == RefNoOptions(Get(formCustomer, "cust_name"), customers)
      ensures formCustomer == old(formCustomer) && errors == old(errors) && customers == old(customers)
    {
      customerRefNos := RefNoOptions(Get(formCustomer, "cust_name"), customers);
    }

    /** `validateAndSetCustomer(field, value)`: the value is taken as entered, without sanitising. */
    method ValidateAndSetCustomer(field: string, value: Input)
      modifies this
      ensures formCustomer == WithField(old(formCustomer), field, InputVal(value))
      ensures errors == old(errors)[field := FieldError(CustomerInfoSchema, formCustomer, field, isEmail)]
      ensures customers == old(customers) && customerRefNos == old(customerRefNos)
    {
      formCustomer := formCustomer[field := InputVal(value)];
      errors := errors[field := FieldError(CustomerInfoSchema, formCustomer, field, isEmail)];
    }

    /** The customer-type select writes `cust_type` directly: nothing is validated or cleared. */
    method SelectCustomerType(value: string)
      modifies this
      ensures formCustomer == WithField(old(formCustomer), "cust_type", Str(value))
      ensures errors == old(errors) && customers == old(customers) && customerRefNos == old(customerRefNos)
    {
      formCustomer := formCustomer["cust_type" := Str(value)];
    }
  }

  /** The name is required, at most 200 characters, all from the general set. */
  lemma CustNameError(r: Record, s: string, isEmail: string -> bool)
    ensures FieldError(CustomerInfoSchema, WithField(r, "cust_name", Str(s)), "cust_name", isEmail)
            == if s == "" then "Customer is required"
               else if |s| > 200 then "Customer name cannot exceed 200 characters"
               else if !AllIn(s, General) then GeneralCharsMsg
               else ""
  {
    ThreeCheckError(CustomerInfoSchema, WithField(r, "cust_name", Str(s)), "cust_name", MinLen(1, "Customer is required"),
                    MaxLen(200, "Customer name cannot exceed 200 characters"), Regex(Plus(General), GeneralCharsMsg), false, s, isEmail);
  }

  /** The reference number is required, at most 100 characters, all from the general set. */
  lemma CustRefNoError(r: Record, s: string, isEmail: string -> bool)
    ensures FieldError(CustomerInfoSchema, WithField(r, "cust_ref_no", Str(s)), "cust_ref_no", isEmail)
            == if s == "" then "Customer Ref. No is required"
               else if |s| > 100 then "Customer Ref. No cannot exceed 100 characters"
               else if !AllIn(s, General) then GeneralCharsMsg
               else ""
  {
    ThreeCheckError(CustomerInfoSchema, WithField(r, "cust_ref_no", Str(s)), "cust_ref_no", MinLen(1, "Customer Ref. No is required"),
                    MaxLen(100, "Customer Ref. No cannot exceed 100 characters"), Regex(Plus(General), GeneralCharsMsg), false, s, isEmail);
  }

  /** The customer type must be one of the five types; anything else, a missing type included, gets one message. */
  lemma CustTypeError(r: Record, v: Val, isEmail: string -> bool)
    ensures FieldError(CustomerInfoSchema, WithField(r, "cust_type", v), "cust_type", isEmail)
            == if v.Str? && v.s in CustomerTypeOptions then "" else CustomerTypeMsg
  {
    EnumFieldError(CustomerInfoSchema, WithField(r, "cust_type", v), "cust_type", CustomerTypeOptions, CustomerTypeMsg, false, isEmail);
  }

  /** Contact number, extension and tax id: a length bound, then a character set. */
  lemma CustContactErrors(r: Record, s: string, isEmail: string -> bool)
    ensures FieldError(CustomerInfoSchema, WithField(r, "cust_contact_no", Str(s)), "cust_contact_no", isEmail)
            == if |s| > 30 then "Contact no cannot exceed 30 characters" else if !AllIn(s, Phone) then "Invalid phone format" else ""
    ensures FieldError(CustomerInfoSchema, WithField(r, "cust_tax_id", Str(s)), "cust_tax_id", isEmail)
            == if |s| > 20 then "Tax ID cannot exceed 20 characters"
               else if !AllIn(s, TaxId) then "Only letters, numbers, dashes, underscores, slashes, and spaces allowed"
               else ""
    ensures FieldError(CustomerInfoSchema, WithField(r, "cust_website", Str(s)), "cust_website", isEmail)
            == if |s| > 150 then "Branch cannot exceed 150 characters" else if !AllIn(s, General) then GeneralCharsMsg else ""
  {
    TwoCheckError(CustomerInfoSchema, WithField(r, "cust_contact_no", Str(s)), "cust_contact_no",
                  MaxLen(30, "Contact no cannot exceed 30 characters"), Regex(Star(Phone), "Invalid phone format"), true, s, isEmail);
    TwoCheckError(CustomerInfoSchema, WithField(r, "cust_tax_id", Str(s)), "cust_tax_id",
                  MaxLen(20, "Tax ID cannot exceed 20 characters"),
                  Regex(Star(TaxId), "Only letters, numbers, dashes, underscores, slashes, and spaces allowed"), true, s, isEmail);
    TwoCheckError(CustomerInfoSchema, WithField(r, "cust_website", Str(s)), "cust_website",
                  MaxLen(150, "Branch cannot exceed 150 characters"), Regex(Star(General), GeneralCharsMsg), true, s, isEmail);
  }

  /** The e-mail fields of customer information and accounts payable: at most 255 characters, then the e-mail test. */
  lemma EmailError(schema: ObjectSchema, r: Record, field: string, s: string, isEmail: string -> bool)
    requires (schema == CustomerInfoSchema && field == "cust_email") || (schema == APSchema && field == "cust_ap_email")
    ensures FieldError(schema, WithField(r, field, Str(s)), field, isEmail)
            == if |s| > 255 then "Email cannot exceed 255 characters" else if !isEmail(s) then "Invalid email format" else ""
  {
    assert RuleOf(schema.shape, field) == Some(EmailRule);
    TwoCheckError(schema, WithField(r, field, Str(s)), field, MaxLen(255, "Email cannot exceed 255 characters"),
                  Email("Invalid email format"), true, s, isEmail);
  }

  /** The phone extensions of customer information and accounts payable: at most 10 letters, digits or hyphens. */
  lemma PhoneExtError(schema: ObjectSchema, r: Record, field: string, s: string, isEmail: string -> bool)
    requires (schema == CustomerInfoSchema && field == "cust_contact_no_ext") || (schema == APSchema && field == "cust_ap_phone_ext")
    ensures FieldError(schema, WithField(r, field, Str(s)), field, isEmail)
            == if |s| > 10 then "Phone Ext cannot exceed 10 characters"
               else if !AllIn(s, Code) then "Only letters, numbers, and hyphens allowed"
               else ""
  {
    assert RuleOf(schema.shape, field) == Some(PhoneExtRule);
    TwoCheckError(schema, WithField(r, field, Str(s)), field, MaxLen(10, "Phone Ext cannot exceed 10 characters"),
                  Regex(Star(Code), "Only letters, numbers, and hyphens allowed"), true, s, isEmail);
  }

  // PrimaryAddress and MailingAddress

  const PrimarySchema := ObjectSchema(map[
    "cust_primary_address" := StreetRule, "cust_primary_city" := CityRule, "cust_primary_state" := StateRule,
    "cust_primary_country" := CountryRule, "cust_primary_postal" := PostalRule, "cust_primary_unit_no" := UnitNoRule
  ], None)

  /** The mailing address declares the primary address's rules under its own keys. */
  const MailingSchema := ObjectSchema(map[
    "cust_mailing_address" := StreetRule, "cust_mailing_city" := CityRule, "cust_mailing_state" := StateRule,
    "cust_mailing_country" := CountryRule, "cust_mailing_postal" := PostalRule, "cust_mailing_unit_no" := UnitNoRule
  ], None)

  class PrimaryAddress {
    const sanitize: string -> string
    var errors: map<string, string>
    var formCustomer: Record

    constructor(sanitize: string -> string, formCustomer: Record)
      ensures this.sanitize == sanitize && this.formCustomer == formCustomer && errors == map[]
    {
      this.sanitize := sanitize;
      this.formCustomer := formCustomer;
      errors := map[];
    }

    /** `validateAndSetField(field, value)`: the sanitised text is stored and checked. */
    method ValidateAndSetField(field: string, value: string)
      modifies this
      ensures formCustomer == WithField(old(formCustomer), field, Str(sanitize(value)))
      ensures errors == old(errors)[field := FieldError(PrimarySchema, formCustomer, field, NoEmail)]
    {
      formCustomer := formCustomer[field := Str(sanitize(value))];
      errors := errors[field := FieldError(PrimarySchema, formCustomer, field, NoEmail)];
    }

    /** The autocomplete fills the five primary address fields; the unit number and every other field stay. */
    method UpdateAddressFields(components: Option<seq<AddressComponent>>)
      modifies this`formCustomer
      ensures formCustomer == SetPlaceFields(old(formCustomer), "cust_primary_", components)
      ensures errors == old(errors)
    {
      var placed := SetPlaceFields(formCustomer, "cust_primary_", components);
      formCustomer := placed;
    }
  }

  /**
   * `handleSameAsPrimaryChange`: checking copies the six primary fields into
   * the six mailing fields, unchecking empties the six mailing fields, and no
   * other field changes.
   */
  function SameAsPrimary(r: Record, checked: bool): (t: Record)
    ensures Get(t, "cust_mailing_address") == if checked then Get(r, "cust_primary_address") else Str("")
    ensures Get(t, "cust_mailing_city") == if checked then Get(r, "cust_primary_city") else Str("")
    ensures Get(t, "cust_mailing_state") == if checked then Get(r, "cust_primary_state") else Str("")
    ensures Get(t, "cust_mailing_country") == if checked then Get(r, "cust_primary_country") else Str("")
    ensures Get(t, "cust_mailing_postal") == if checked then Get(r, "cust_primary_postal") else Str("")
    ensures Get(t, "cust_mailing_unit_no") == if checked then Get(r, "cust_primary_unit_no") else Str("")
    ensures forall k :: k != "cust_mailing_address" && k != "cust_mailing_city" && k != "cust_mailing_state"
                        && k != "cust_mailing_country" && k != "cust_mailing_postal" && k != "cust_mailing_unit_no" ==>
              Get(t, k) == Get(r, k)
  {
    var r1 := WithField(r, "cust_mailing_address", if checked then Get(r, "cust_primary_address") else Str(""));
    var r2 := WithField(r1, "cust_mailing_city", if checked then Get(r, "cust_primary_city") else Str(""));
    var r3 := WithField(r2, "cust_mailing_state", if checked then Get(r, "cust_primary_state") else Str(""));
    var r4 := WithField(r3, "cust_mailing_country", if checked then Get(r, "cust_primary_country") else Str(""));
    var r5 := WithField(r4, "cust_mailing_postal", if checked then Get(r, "cust_primary_postal") else Str(""));
    WithField(r5, "cust_mailing_unit_no", if checked then Get(r, "cust_primary_unit_no") else Str(""))
  }

  class MailingAddress {
    const sanitize: string -> string
    var errors: map<string, string>
    var formCustomer: Record
    var sameAsPrimary: bool

    constructor(sanitize: string -> string, formCustomer: Record)
      ensures this.sanitize == sanitize && this.formCustomer == formCustomer && errors == map[] && !sameAsPrimary
    {
      this.sanitize := sanitize;
      this.formCustomer := formCustomer;
      errors := map[];
      sameAsPrimary := false;
    }

    method ValidateAndSetField(field: string, value: string)
      modifies this
      ensures formCustomer == WithField(old(formCustomer), field, Str(sanitize(value)))
      ensures errors == old(errors)[field := FieldError(MailingSchema, formCustomer, field, NoEmail)]
      ensures sameAsPrimary == old(sameAsPrimary)
    {
      formCustomer := formCustomer[field := Str(sanitize(value))];
      errors := errors[field := FieldError(MailingSchema, formCustomer, field, NoEmail)];
    }

    method UpdateAddressFields(components: Option<seq<AddressComponent>>)
      modifies this`formCustomer
      ensures formCustomer == SetPlaceFields(old(formCustomer), "cust_mailing_", components)
      ensures errors == old(errors) && sameAsPrimary == old(sameAsPrimary)
    {
      var placed := SetPlaceFields(formCustomer, "cust_mailing_", components);
      formCustomer := placed;
    }

    /** The "same as primary" checkbox; the errors already shown are left as they are. */
    method HandleSameAsPrimaryChange(checked: bool)
      modifies this`sameAsPrimary, this`formCustomer
      ensures sameAsPrimary == checked
      ensures formCustomer == SameAsPrimary(old(formCustomer), checked)
      ensures errors == old(errors)
    {
      var copied := SameAsPrimary(formCustomer, checked);
      sameAsPrimary := checked;
      formCustomer := copied;
    }
  }

  /** The street line of all three address sections: at most 255 characters of letters, digits, white space and `,.'-`. */
  lemma StreetFieldError(schema: ObjectSchema, r: Record, field: string, s: string, isEmail: string -> bool)
    requires (schema == PrimarySchema && field == "cust_primary_address") || (schema == MailingSchema && field == "cust_mailing_address")
             || (schema == APSchema && field == "cust_ap_address")
    ensures FieldError(schema, WithField(r, field, Str(s)), field, isEmail)
            == if |s| > 255 then "Address is too long" else if !AllIn(s, Street) then "Invalid street format" else ""
  {
    assert RuleOf(schema.shape, field) == Some(StreetRule);
    TwoCheckError(schema, WithField(r, field, Str(s)), field, StreetRule.t.checks[0], StreetRule.t.checks[1], true, s, isEmail);
  }

  /** The city of all three address sections: at most 200 letters, white space or `.'-`. */
  lemma CityFieldError(schema: ObjectSchema, r: Record, field: string, s: string, isEmail: string -> bool)
    requires (schema == PrimarySchema && field == "cust_primary_city") || (schema == MailingSchema && field == "cust_mailing_city")
             || (schema == APSchema && field == "cust_ap_city")
    ensures FieldError(schema, WithField(r, field, Str(s)), field, isEmail)
            == if |s| > 200 then "City name is too long" else if !AllIn(s, Place) then "Invalid city format" else ""
  {
    assert RuleOf(schema.shape, field) == Some(CityRule);
    TwoCheckError(schema, WithField(r, field, Str(s)), field, CityRule.t.checks[0], CityRule.t.checks[1], true, s, isEmail);
  }

  /** The state: the same characters and bound, other messages. */
  lemma StateFieldError(schema: ObjectSchema, r: Record, field: string, s: string, isEmail: string -> bool)
    requires (schema == PrimarySchema && field == "cust_primary_state") || (schema == MailingSchema && field == "cust_mailing_state")
             || (schema == APSchema && field == "cust_ap_state")
    ensures FieldError(schema, WithField(r, field, Str(s)), field, isEmail)
            == if |s| > 200 then "Invalid state" else if !AllIn(s, Place) then "Invalid state format" else ""
  {
    assert RuleOf(schema.shape, field) == Some(StateRule);
    TwoCheckError(schema, WithField(r, field, Str(s)), field, StateRule.t.checks[0], StateRule.t.checks[1], true, s, isEmail);
  }

  /** The country: the same characters, at most 100. */
  lemma CountryFieldError(schema: ObjectSchema, r: Record, field: string, s: string, isEmail: string -> bool)
    requires (schema == PrimarySchema && field == "cust_primary_country") || (schema == MailingSchema && field == "cust_mailing_country")
             || (schema == APSchema && field == "cust_ap_country")
    ensures FieldError(schema, WithField(r, field, Str(s)), field, isEmail)
            == if |s| > 100 then "Invalid country" else if !AllIn(s, Place) then "Invalid country format" else ""
  {
    assert RuleOf(schema.shape, field) == Some(CountryRule);
    TwoCheckError(schema, WithField(r, field, Str(s)), field, CountryRule.t.checks[0], CountryRule.t.checks[1], true, s, isEmail);
  }

  /** The postal code: at most 20 letters, digits, white space or hyphens. */
  lemma PostalFieldError(schema: ObjectSchema, r: Record, field: string, s: string, isEmail: string -> bool)
    requires (schema == PrimarySchema && field == "cust_primary_postal") || (schema == MailingSchema && field == "cust_mailing_postal")
             || (schema == APSchema && field == "cust_ap_postal")
    ensures FieldError(schema, WithField(r, field, Str(s)), field, isEmail)
            == if |s| > 20 then "Postal code cannot exceed 20 characters" else if !AllIn(s, Postal) then "Invalid postal code" else ""
  {
    assert RuleOf(schema.shape, field) == Some(PostalRule);
    TwoCheckError(schema, WithField(r, field, Str(s)), field, PostalRule.t.checks[0], PostalRule.t.checks[1], true, s, isEmail);
  }

  /** The unit number of the primary and mailing addresses: at most 30 alphanumerics, `#`, `/`, white space or `-`. */
  lemma UnitNoFieldError(schema: ObjectSchema, r: Record, field: string, s: string, isEmail: string -> bool)
    requires (schema == PrimarySchema && field == "cust_primary_unit_no") || (schema == MailingSchema && field == "cust_mailing_unit_no")
    ensures FieldError(schema, WithField(r, field, Str(s)), field, isEmail)
            == if |s| > 30 then "Unit No cannot exceed 30 characters"
               else if !AllIn(s, UnitNo) then "Only letters, numbers, #, hyphens, slashes, and spaces allowed"
               else ""
  {
    assert RuleOf(schema.shape, field) == Some(UnitNoRule);
    TwoCheckError(schema, WithField(r, field, Str(s)), field, UnitNoRule.t.checks[0], UnitNoRule.t.checks[1], true, s, isEmail);
  }

  /** Every field of the primary and mailing addresses may be left empty: "" is never reported, whatever the field. */
  lemma AddressAcceptsEmpty(schema: ObjectSchema, r: Record, field: string, isEmail: string -> bool)
    requires schema == PrimarySchema || schema == MailingSchema
    requires Get(r, field) == Str("")
    ensures FieldError(schema, r, field, isEmail) == ""
  {
    forall k | k in schema.shape
      ensures StarRule(schema.shape[k])
    {
    }
    StarRulesAcceptEmpty(schema, r, field, isEmail);
  }

  /** m is a mailing field and p the primary field "same as primary" copies into it. */
  predicate IsMailingPair(m: string, p: string) {
    || (m == "cust_mailing_address" && p == "cust_primary_address")
    || (m == "cust_mailing_city" && p == "cust_primary_city")
    || (m == "cust_mailing_state" && p == "cust_primary_state")
    || (m == "cust_mailing_country" && p == "cust_primary_country")
    || (m == "cust_mailing_postal" && p == "cust_primary_postal")
    || (m == "cust_mailing_unit_no" && p == "cust_primary_unit_no")
  }

  /**
   * After "same as primary" is checked, each mailing field gets exactly the
   * error its primary counterpart gets: the copy is valid where the primary
   * address is.
   */
  lemma CopiedMailingMatchesPrimary(r: Record, m: string, p: string, isEmail: string -> bool)
    requires IsMailingPair(m, p)
    ensures FieldError(MailingSchema, SameAsPrimary(r, true), m, isEmail) == FieldError(PrimarySchema, r, p, isEmail)
  {
    MailingCopyReadsPrimary(r, m, p);
    MailingRulesMatchPrimary(m, p);
    SameRuleSameError(MailingSchema, SameAsPrimary(r, true), m, PrimarySchema, r, p, isEmail);
  }

  /** Checking "same as primary" puts into each mailing field the value of its primary field. */
  lemma MailingCopyReadsPrimary(r: Record, m: string, p: string)
    requires IsMailingPair(m, p)
    ensures Get(SameAsPrimary(r, true), m) == Get(r, p)
  {
  }

  /** Each mailing field is declared with the rule of its primary field. */
  lemma MailingRulesMatchPrimary(m: string, p: string)
    requires IsMailingPair(m, p)
    ensures RuleOf(MailingSchema.shape, m) == RuleOf(PrimarySchema.shape, p)
  {
  }

  /** After "same as primary" is unchecked, no mailing field would be reported. */
  lemma ClearedMailingAccepted(r: Record, field: string, isEmail: string -> bool)
    requires field in MailingSchema.shape
    ensures FieldError(MailingSchema, SameAsPrimary(r, false), field, isEmail) == ""
  {
    MailingFields(field);
    var t := SameAsPrimary(r, false);
    assert Get(t, field) == Str("");
    AddressAcceptsEmpty(MailingSchema, t, field, isEmail);
  }

  lemma MailingFields(field: string)
    requires field in MailingSchema.shape
    ensures field == "cust_mailing_address" || field == "cust_mailing_city" || field == "cust_mailing_state"
            || field == "cust_mailing_country" || field == "cust_mailing_postal" || field == "cust_mailing_unit_no"
  {
  }

  // AccountsPayable

  const APSchema := ObjectSchema(map[
    "cust_ap_name" := Rule(StringType([MaxLen(200, "Name cannot exceed 200 characters"), Regex(Plus(General), GeneralCharsMsg)]), true),
    "cust_ap_address" := StreetRule, "cust_ap_city" := CityRule, "cust_ap_state" := StateRule,
    "cust_ap_country" := CountryRule, "cust_ap_postal" := PostalRule,
    "cust_ap_unit_no" := Rule(StringType([MaxLen(30, "Unit No cannot exceed 30 characters"), Regex(Star(Phone), "Invalid phone format")]), true),
    "cust_ap_email" := EmailRule,
    "cust_ap_phone" := Rule(StringType([MaxLen(30, "Phone cannot exceed 30 characters"), Regex(Star(Phone), "Invalid phone format")]), true),
    "cust_ap_phone_ext" := PhoneExtRule,
    "cust_ap_fax" := Rule(StringType([MaxLen(30, "Fax cannot exceed 30 characters"), Regex(Star(Phone), "Invalid fax format")]), true)
  ], None)

  class AccountsPayable {
    const sanitize: string -> string
    const isEmail: string -> bool
    var errors: map<string, string>
    var formCustomer: Record

    constructor(sanitize: string -> string, isEmail: string -> bool, formCustomer: Record)
      ensures this.sanitize == sanitize && this.isEmail == isEmail && this.formCustomer == formCustomer && errors == map[]
    {
      this.sanitize := sanitize;
      this.isEmail := isEmail;
      this.formCustomer := formCustomer;
      errors := map[];
    }

    /** `validateAndSetField`: only a field the schema declares is checked; any other field's error is cleared. */
    method ValidateAndSetField(field: string, value: string)
      modifies this
      ensures formCustomer == WithField(old(formCustomer), field, Str(sanitize(value)))
      ensures errors == old(errors)[field := if field in APSchema.shape then FieldError(APSchema, formCustomer, field, isEmail) else ""]
    {
      var error := "";
      formCustomer := formCustomer[field := Str(sanitize(value))];
      if field in APSchema.shape {
        error := FieldError(APSchema, formCustomer, field, isEmail);
      }
      errors := errors[field := error];
    }

    /** `updateAddressFields(place)`: nothing happens for a place without address components. */
    method UpdateAddressFields(components: Option<seq<AddressComponent>>)
      modifies this`formCustomer
      ensures components.None? ==> formCustomer == old(formCustomer)
      ensures components.Some? ==>
                formCustomer == SetPlaceFields(old(formCustomer), "cust_ap_", components)
      ensures errors == old(errors)
    {
      if components.Some? {
        var placed := SetPlaceFields(formCustomer, "cust_ap_", components);
        formCustomer := placed;
      }
    }
  }

  /** The shape guard changes nothing: a field outside the schema would get "" from the parse as well. */
  lemma APGuardAgrees(r: Record, field: string, isEmail: string -> bool)
    ensures (if field in APSchema.shape then FieldError(APSchema, r, field, isEmail) else "") == FieldError(APSchema, r, field, isEmail)
  {
    if field !in APSchema.shape {
      UndeclaredFieldHasNoError(APSchema, r, field, isEmail);
    }
  }

  /** The payable name needs at least one character of the general set, so "" is reported with the pattern's message. */
  lemma APNameError(r: Record, s: string, isEmail: string -> bool)
    ensures FieldError(APSchema, WithField(r, "cust_ap_name", Str(s)), "cust_ap_name", isEmail)
            == if |s| > 200 then "Name cannot exceed 200 characters"
               else if s == "" || !AllIn(s, General) then GeneralCharsMsg
               else ""
  {
    TwoCheckError(APSchema, WithField(r, "cust_ap_name", Str(s)), "cust_ap_name", MaxLen(200, "Name cannot exceed 200 characters"),
                  Regex(Plus(General), GeneralCharsMsg), true, s, isEmail);
  }

  /** Unit number, phone and fax of accounts payable all take the phone characters; the unit number says so in its message. */
  lemma APPhoneLikeErrors(r: Record, s: string, isEmail: string -> bool)
    ensures FieldError(APSchema, WithField(r, "cust_ap_unit_no", Str(s)), "cust_ap_unit_no", isEmail)
            == if |s| > 30 then "Unit No cannot exceed 30 characters" else if !AllIn(s, Phone) then "Invalid phone format" else ""
    ensures FieldError(APSchema, WithField(r, "cust_ap_phone", Str(s)), "cust_ap_phone", isEmail)
            == if |s| > 30 then "Phone cannot exceed 30 characters" else if !AllIn(s, Phone) then "Invalid phone format" else ""
    ensures FieldError(APSchema, WithField(r, "cust_ap_fax", Str(s)), "cust_ap_fax", isEmail)
            == if |s| > 30 then "Fax cannot exceed 30 characters" else if !AllIn(s, Phone) then "Invalid fax format" else ""
  {
    TwoCheckError(APSchema, WithField(r, "cust_ap_unit_no", Str(s)), "cust_ap_unit_no", MaxLen(30, "Unit No cannot exceed 30 characters"),
                  Regex(Star(Phone), "Invalid phone format"), true, s, isEmail);
    TwoCheckError(APSchema, WithField(r, "cust_ap_phone", Str(s)), "cust_ap_phone", MaxLen(30, "Phone cannot exceed 30 characters"),
                  Regex(Star(Phone), "Invalid phone format"), true, s, isEmail);
    TwoCheckError(APSchema, WithField(r, "cust_ap_fax", Str(s)), "cust_ap_fax", MaxLen(30, "Fax cannot exceed 30 characters"),
                  Regex(Star(Phone), "Invalid fax format"), true, s, isEmail);
  }

  // CustomBroker

  const BrokerSchema := ObjectSchema(map[
    "cust_broker_name" := Rule(StringType([MaxLen(200, "Broker name cannot exceed 200 characters"), Regex(Plus(General), GeneralCharsMsg)]), true),
    "cust_bkp_notes" := Rule(StringType([MaxLen(500, "Notes cannot exceed 500 characters"), Regex(Star(General), GeneralCharsMsg)]), true),
    "cust_bkspl_notes" := Rule(StringType([MaxLen(500, "Special notes By cannot exceed 100 characters"), Regex(Star(General), GeneralCharsMsg)]), true)
  ], None)

  /** Position of the first option whose value is v. */
  function FindOption(options: seq<SelectOption>, v: Val): (r: Option<nat>)
    ensures r.Some? ==> r.value < |options| && Str(options[r.value].value) == v
    ensures r.None? ==> forall i :: 0 <= i < |options| ==> Str(options[i].value) != v
  {
    if options == [] then None
    else if Str(options[0].value) == v then Some(0)
    else
      var r := FindOption(options[1..], v);
      assert forall i :: 1 <= i < |options| ==> options[i] == options[1..][i - 1];
      if r.Some? then Some(r.value + 1) else None
  }

  class CustomBroker {
    var errors: map<string, string>
    var formCustomer: Record
    /** The fetched brokers as `{ value: broker_name, label: broker_name }`. */
    var brokers: seq<SelectOption>

    constructor(formCustomer: Record)
      ensures this.formCustomer == formCustomer && errors == map[] && brokers == []
    {
      this.formCustomer := formCustomer;
      errors := map[];
      brokers := [];
    }

    /**
     * The broker fetch: the names become the options, and a non-empty list
     * writes its first name to `broker_name` (not to `cust_broker_name`, the
     * field the select shows).
     */
    method LoadBrokers(names: seq<string>)
      modifies this
      ensures |brokers| == |names| && forall i :: 0 <= i < |names| ==> brokers[i] == SelectOption(names[i], names[i])
      ensures formCustomer == if names == [] then old(formCustomer) else WithField(old(formCustomer), "broker_name", Str(names[0]))
      ensures errors == old(errors)
    {
      brokers := seq(|names|, i requires 0 <= i < |names| => SelectOption(names[i], names[i]));
      if names != [] {
        formCustomer := formCustomer["broker_name" := Str(names[0])];
      }
    }

    /** The effect on `[cust_broker_name, brokers]`: a chosen name that is a fetched broker is copied to `broker`. */
    method MatchBroker()
      modifies this
      ensures var name := Get(old(formCustomer), "cust_broker_name");
              formCustomer == if Truthy(name) && exists i :: 0 <= i < |brokers| && Str(brokers[i].value) == name
                              then WithField(old(formCustomer), "broker", name)
                              else old(formCustomer)
      ensures errors == old(errors) && brokers == old(brokers)
    {
      var name := Get(formCustomer, "cust_broker_name");
      var found := if Truthy(name) then FindOption(brokers, name) else None;
      if found.Some? {
        ghost var i := found.value;
        formCustomer := WithField(formCustomer, "broker", name);
        assert 0 <= i < |brokers| && Str(brokers[i].value) == name;
      } else {
        assert !(Truthy(name) && exists i :: 0 <= i < |brokers| && Str(brokers[i].value) == name);
      }
    }

    /** `validateAndSetCustomer(field, value)`: the value is taken as entered, without sanitising. */
    method ValidateAndSetCustomer(field: string, value: Input)
      modifies this
      ensures formCustomer == WithField(old(formCustomer), field, InputVal(value))
      ensures errors == old(errors)[field := FieldError(BrokerSchema, formCustomer, field, NoEmail)]
      ensures brokers == old(brokers)
    {
      formCustomer := formCustomer[field := InputVal(value)];
      errors := errors[field := FieldError(BrokerSchema, formCustomer, field, NoEmail)];
    }
  }

  /** The broker name needs at least one general character: choosing "Select a broker" ("") is reported. */
  lemma BrokerNameError(r: Record, s: string, isEmail: string -> bool)
    ensures FieldError(BrokerSchema, WithField(r, "cust_broker_name", Str(s)), "cust_broker_name", isEmail)
            == if |s| > 200 then "Broker name cannot exceed 200 characters"
               else if s == "" || !AllIn(s, General) then GeneralCharsMsg
               else ""
  {
    TwoCheckError(BrokerSchema, WithField(r, "cust_broker_name", Str(s)), "cust_broker_name",
                  MaxLen(200, "Broker name cannot exceed 200 characters"), Regex(Plus(General), GeneralCharsMsg), true, s, isEmail);
  }

  /**
   * Both note fields allow 500 general characters, empty included; the
   * special notes report an overlong text as exceeding 100.
   */
  lemma BrokerNotesErrors(r: Record, s: string, isEmail: string -> bool)
    ensures FieldError(BrokerSchema, WithField(r, "cust_bkp_notes", Str(s)), "cust_bkp_notes", isEmail)
            == if |s| > 500 then "Notes cannot exceed 500 characters" else if !AllIn(s, General) then GeneralCharsMsg else ""
    ensures FieldError(BrokerSchema, WithField(r, "cust_bkspl_notes", Str(s)), "cust_bkspl_notes", isEmail)
            == if |s| > 500 then "Special notes By cannot exceed 100 characters" else if !AllIn(s, General) then GeneralCharsMsg else ""
  {
    TwoCheckError(BrokerSchema, WithField(r, "cust_bkp_notes", Str(s)), "cust_bkp_notes",
                  MaxLen(500, "Notes cannot exceed 500 characters"), Regex(Star(General), GeneralCharsMsg), true, s, isEmail);
    TwoCheckError(BrokerSchema, WithField(r, "cust_bkspl_notes", Str(s)), "cust_bkspl_notes",
                  MaxLen(500, "Special notes By cannot exceed 100 characters"), Regex(Star(General), GeneralCharsMsg), true, s, isEmail);
  }

  // CustomerCredit

  const CreditStatusOptions := ["Approved", "Not Approved"]
  /** The credit status's error map answers with the equipment message. */
  const CreditStatusMsg := "Invalid equipment type"
  const CreditWordsMsg := "Only letters, numbers,spaces, apostrophes, periods, commas, and hyphens allowed"

  const CreditSchema := ObjectSchema(map[
    "cust_credit_status" := Rule(EnumType(CreditStatusOptions, CreditStatusMsg), true),
    "cust_credit_appd" := Rule(StringType([]), true),
    "cust_credit_expd" := Rule(StringType([]), true),
    "cust_credit_mop" := Rule(StringType([MaxLen(100, "Mode of payment must be at most 100 characters long"), Regex(Star(Street), CreditWordsMsg)]), true),
    "cust_credit_currency" := Rule(StringType([MaxLen(10, "Currency must be at most 10 characters long"),
                                               Regex(Star(Code), "Only letters, numbers, and dashes allowed")]), true),
    "cust_credit_application" := Rule(BooleanType, true),
    "cust_credit_terms" := Rule(StringType([MaxLen(100, "Terms must be at most 100 characters"), Regex(Star(Street), CreditWordsMsg)]), true),
    "cust_credit_limit" := Rule(StringType([MaxLen(100, "Limit must be at most 100 characters long"), Regex(DigitsOnly, "Limit must be numeric")]), true),
    "cust_credit_notes" := Rule(StringType([MaxLen(500, "Notes cannot exceed 500 characters"), Regex(Star(Street), GeneralCharsMsg)]), true)
  ], None)

  /** A boolean is kept as it is; text is sanitised. */
  function CreditValue(value: Input, sanitize: string -> string): Val {
    match value
    case Checked(b) => Bool(b)
    case Text(s) => Str(sanitize(s))
  }

  const NoFileUrlMsg := "File upload failed: No file URL returned."
  const UnexpectedFormatMsg := "File upload failed: Unexpected response format."
  const NetworkErrorMsg := "Network error during file upload."

  /** What an upload response leads to: the stored URL and file name, or an alert. */
  datatype Upload = Stored(url: string, fileName: Val) | Rejected(alert: string)

  /** `data.files[fileType]`. */
  function FileEntry(data: Val, fileType: string): Val {
    Prop(Prop(data, "files"), fileType)
  }

  /**
   * A URL that starts with "http" is kept; any other is appended to the API
   * base with its first "/api" removed.
   */
  function ResolveUploadUrl(apiUrl: string, url: string): string {
    if StartsWith(url, "http") then url else ReplaceFirst(apiUrl, "/api", "") + url
  }

  /**
   * The response handling of `handleFileChange`. A request or JSON failure,
   * and a `fileUrl` that is truthy but not a string (its `startsWith` throws
   * inside the same `try`), end in the network-error alert.
   */
  function UploadOutcome(apiUrl: string, fileType: string, reply: Reply<Val>): Upload {
    match reply
    case Fail(_) => Rejected(NetworkErrorMsg)
    case Ok(data) =>
      if !(Truthy(data) && Truthy(Prop(data, "files")) && Truthy(FileEntry(data, fileType))) then Rejected(UnexpectedFormatMsg)
      else
        var url := Prop(FileEntry(data, fileType), "fileUrl");
        if !Truthy(url) then Rejected(NoFileUrlMsg)
        else if !url.Str? then Rejected(NetworkErrorMsg)
        else Stored(ResolveUploadUrl(apiUrl, url.s), Prop(FileEntry(data, fileType), "fileName"))
  }

  class CustomerCredit {
    const sanitize: string -> string
    /** `process.env.API_BASE_URL`. */
    const apiUrl: string
    var errors: map<string, string>
    var formCustomer: Record
    var uploading: bool

    constructor(sanitize: string -> string, apiUrl: string, formCustomer: Record)
      ensures this.sanitize == sanitize && this.apiUrl == apiUrl && this.formCustomer == formCustomer
      ensures errors == map[] && !uploading
    {
      this.sanitize := sanitize;
      this.apiUrl := apiUrl;
      this.formCustomer := formCustomer;
      errors := map[];
      uploading := false;
    }

    method ValidateAndSetCustomer(field: string, value: Input)
      modifies this
      ensures formCustomer == WithField(old(formCustomer), field, CreditValue(value, sanitize))
      ensures errors == old(errors)[field := FieldError(CreditSchema, formCustomer, field, NoEmail)]
      ensures uploading == old(uploading)
    {
      formCustomer := formCustomer[field := CreditValue(value, sanitize)];
      errors := errors[field := FieldError(CreditSchema, formCustomer, field, NoEmail)];
    }

    /** The credit-status select and the credit-application checkbox write the draft without validating. */
    method SetUnchecked(field: string, value: Input)
      modifies this
      ensures formCustomer == WithField(old(formCustomer), field, InputVal(value))
      ensures errors == old(errors) && uploading == old(uploading)
    {
      formCustomer := formCustomer[field := InputVal(value)];
    }

    /**
     * `handleFileChange(e, fileType)`: with a picked file, one POST of the
     * file to `/upload`; a usable reply stores the resolved URL under
     * `fileType` and the file name under `fileType + "_name"`, any other
     * reply raises an alert and leaves the draft as it was.
     */
    method HandleFileChange(fileType: string, file: Option<string>, reply: Reply<Val>) returns (effects: seq<Effect>)
      requires fileType == "cust_sbk_agreement" || fileType == "cust_credit_agreement"
      modifies this
      ensures file.None? ==> effects == [] && formCustomer == old(formCustomer) && uploading == old(uploading)
      ensures file.Some? ==>
                && uploading == false
                && |effects| >= 1
                && effects[0] == Request(POST, "/upload", Obj(map[fileType := File(file.value)]))
      ensures file.Some? ==>
                match UploadOutcome(apiUrl, fileType, reply)
                case Stored(url, name) =>
                  effects == [effects[0]]
                  && formCustomer == WithField(WithField(old(formCustomer), fileType, Str(url)), fileType + "_name", name)
                case Rejected(m) =>
                  effects == [effects[0], Alert(m)] && formCustomer == old(formCustomer)
      ensures errors == old(errors)
    {
      if file.None? {
        return [];
      }
      effects := [Request(POST, "/upload", Obj(map[fileType := File(file.value)]))];
      uploading := false;
      match UploadOutcome(apiUrl, fileType, reply)
      case Stored(url, name) =>
        formCustomer := formCustomer[fileType := Str(url)][fileType + "_name" := name];
      case Rejected(m) =>
        effects := effects + [Alert(m)];
    }
  }

  /** The limit takes at most 100 digits, nothing else. */
  lemma CreditLimitError(r: Record, s: string, isEmail: string -> bool)
    ensures FieldError(CreditSchema, WithField(r, "cust_credit_limit", Str(s)), "cust_credit_limit", isEmail)
            == if |s| > 100 then "Limit must be at most 100 characters long" else if !AllDigits(s) then "Limit must be numeric" else ""
  {
    TwoCheckError(CreditSchema, WithField(r, "cust_credit_limit", Str(s)), "cust_credit_limit",
                  MaxLen(100, "Limit must be at most 100 characters long"), Regex(DigitsOnly, "Limit must be numeric"), true, s, isEmail);
  }

  /** Currency: at most 10 letters, digits or hyphens. Mode of payment, terms and notes: street characters, 100 or 500 of them. */
  lemma CreditTextErrors(r: Record, s: string, isEmail: string -> bool)
    ensures FieldError(CreditSchema, WithField(r, "cust_credit_currency", Str(s)), "cust_credit_currency", isEmail)
            == if |s| > 10 then "Currency must be at most 10 characters long"
               else if !AllIn(s, Code) then "Only letters, numbers, and dashes allowed"
               else ""
    ensures FieldError(CreditSchema, WithField(r, "cust_credit_mop", Str(s)), "cust_credit_mop", isEmail)
            == if |s| > 100 then "Mode of payment must be at most 100 characters long" else if !AllIn(s, Street) then CreditWordsMsg else ""
    ensures FieldError(CreditSchema, WithField(r, "cust_credit_terms", Str(s)), "cust_credit_terms", isEmail)
            == if |s| > 100 then "Terms must be at most 100 characters" else if !AllIn(s, Street) then CreditWordsMsg else ""
    ensures FieldError(CreditSchema, WithField(r, "cust_credit_notes", Str(s)), "cust_credit_notes", isEmail)
            == if |s| > 500 then "Notes cannot exceed 500 characters" else if !AllIn(s, Street) then GeneralCharsMsg else ""
  {
    TwoCheckError(CreditSchema, WithField(r, "cust_credit_currency", Str(s)), "cust_credit_currency",
                  MaxLen(10, "Currency must be at most 10 characters long"), Regex(Star(Code), "Only letters, numbers, and dashes allowed"),
                  true, s, isEmail);
    TwoCheckError(CreditSchema, WithField(r, "cust_credit_mop", Str(s)), "cust_credit_mop",
                  MaxLen(100, "Mode of payment must be at most 100 characters long"), Regex(Star(Street), CreditWordsMsg), true, s, isEmail);
    TwoCheckError(CreditSchema, WithField(r, "cust_credit_terms", Str(s)), "cust_credit_terms",
                  MaxLen(100, "Terms must be at most 100 characters"), Regex(Star(Street), CreditWordsMsg), true, s, isEmail);
    TwoCheckError(CreditSchema, WithField(r, "cust_credit_notes", Str(s)), "cust_credit_notes",
                  MaxLen(500, "Notes cannot exceed 500 characters"), Regex(Star(Street), GeneralCharsMsg), true, s, isEmail);
  }

  /** The approval and expiry dates take any text. */
  lemma CreditDatesAcceptText(r: Record, field: string, s: string, isEmail: string -> bool)
    requires field == "cust_credit_appd" || field == "cust_credit_expd"
    ensures FieldError(CreditSchema, WithField(r, field, Str(s)), field, isEmail) == ""
  {
    assert RuleOf(CreditSchema.shape, field) == Some(Rule(StringType([]), true));
    assert OwnIssues(CreditSchema, WithField(r, field, Str(s)), field, isEmail) == [];
  }

  /** The credit application takes a boolean, which is handed over unsanitised; text is the wrong type. */
  lemma CreditApplicationError(r: Record, v: Input, sanitize: string -> string, isEmail: string -> bool)
    ensures FieldError(CreditSchema, WithField(r, "cust_credit_application", CreditValue(v, sanitize)), "cust_credit_application", isEmail)
            == if v.Checked? then "" else "Expected boolean, received string"
  {
    var t := WithField(r, "cust_credit_application", CreditValue(v, sanitize));
    CreditApplicationRule();
    FieldErrorByRule(CreditSchema, t, "cust_credit_application", Rule(BooleanType, true), isEmail);
    assert Issues(Rule(BooleanType, true), CreditValue(v, sanitize), isEmail)
           == if v.Checked? then [] else [TypeIssue("boolean", CreditValue(v, sanitize))];
    if v.Text? {
      TextForBoolean(sanitize(v.s));
    }
  }

  lemma TextForBoolean(s: string)
    ensures TypeIssue("boolean", Str(s)) == "Expected boolean, received string"
  {
    assert TypeName(Str(s)) == "string";
  }

  lemma CreditApplicationRule()
    ensures RuleOf(CreditSchema.shape, "cust_credit_application") == Some(Rule(BooleanType, true))
    ensures CreditSchema.refinement.None?
  {
  }

  /** The credit status must be Approved or Not Approved, or absent; the message speaks of equipment. */
  lemma CreditStatusError(r: Record, v: Val, isEmail: string -> bool)
    ensures FieldError(CreditSchema, WithField(r, "cust_credit_status", v), "cust_credit_status", isEmail)
            == if v == Undefined || (v.Str? && v.s in CreditStatusOptions) then "" else CreditStatusMsg
  {
    EnumFieldError(CreditSchema, WithField(r, "cust_credit_status", v), "cust_credit_status", CreditStatusOptions, CreditStatusMsg, true, isEmail);
  }

  /**
   * An upload is stored exactly when the reply carries a non-empty string
   * `fileUrl` under `files[fileType]`; the truthiness tests before it then
   * hold by themselves.
   */
  lemma UploadStoredIff(apiUrl: string, fileType: string, reply: Reply<Val>)
    ensures UploadOutcome(apiUrl, fileType, reply).Stored? <==>
              reply.Ok? && Prop(FileEntry(reply.data, fileType), "fileUrl").Str? && Prop(FileEntry(reply.data, fileType), "fileUrl").s != ""
    ensures UploadOutcome(apiUrl, fileType, reply).Rejected? ==>
              UploadOutcome(apiUrl, fileType, reply).alert in [NoFileUrlMsg, UnexpectedFormatMsg, NetworkErrorMsg]
  {
    if reply.Ok? {
      var data := reply.data;
      var url := Prop(FileEntry(data, fileType), "fileUrl");
      if url.Str? && url.s != "" {
        assert FileEntry(data, fileType).Obj?;
        assert Prop(data, "files").Obj?;
        assert data.Obj?;
      }
    }
  }

  /** A stored URL that already starts with "http" is the one the server sent. */
  lemma AbsoluteUploadUrlKept(apiUrl: string, url: string)
    requires StartsWith(url, "http")
    ensures ResolveUploadUrl(apiUrl, url) == url
  {
  }

  /**
   * A relative URL is appended to the API base without its "/api" suffix,
   * provided that suffix is the base's first "/api".
   */
  lemma RelativeUploadUrl(base: string, url: string)
    requires !StartsWith(url, "http")
    requires forall k: nat :: k < |base| ==> !OccursAt(base + "/api", "/api", k)
    ensures ResolveUploadUrl(base + "/api", url) == base + url
  {
    var s := base + "/api";
    assert s[|base|..] == "/api";
    assert OccursAt(s, "/api", |base|);
    assert IndexOf(s, "/api") == Some(|base|);
    assert s[..|base|] == base;
    assert s[|base| + 4..] == [];
  }
}
