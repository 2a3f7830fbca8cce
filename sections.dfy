/**
 * What the form sections share: the value an input hands to a validator,
 * the Google Places lookup the address autocompletes use, the customer
 * reference-number options, and the meaning of a stored field error.
 */
module Sections {
  import opened Wrappers
  import opened Strings
  import opened Values
  import opened Patterns
  import opened Schema

  /** `value: string | boolean`: a text input's value or a checkbox's checked state. */
  datatype Input = Text(s: string) | Checked(b: bool)

  function InputVal(i: Input): Val {
    match i
    case Text(s) => Str(s)
    case Checked(b) => Bool(b)
  }

  /** `{ ...draft, [field]: v }`. */
  function WithField(r: Record, field: string, v: Val): (t: Record)
    ensures Get(t, field) == v
    ensures forall k :: k != field ==> Get(t, k) == Get(r, k)
    ensures t.Keys == r.Keys + {field}
  {
    r[field := v]
  }

  /** The message of the `[a-zA-Z0-9\s.,'"-]` pattern in most sections. */
  const GeneralCharsMsg := "Only letters, numbers, spaces, apostrophes, periods, commas, and hyphens allowed"

  // Google Places

  /** One entry of `place.address_components`. */
  datatype AddressComponent = AddressComponent(types: seq<string>, longName: string)

  /**
   * `place.address_components?.find(c => c.types.includes(type))?.long_name || ''`;
   * `None` stands for a place without `address_components`.
   */
  function GetComponent(components: Option<seq<AddressComponent>>, t: string): (r: string)
    ensures components.None? ==> r == ""
    ensures components.Some? ==> r == FirstWithType(components.value, t)
  {
    if components.None? then "" else FirstWithType(components.value, t)
  }

  function FirstWithType(cs: seq<AddressComponent>, t: string): (r: string)
    ensures (forall i :: 0 <= i < |cs| ==> t !in cs[i].types) ==> r == ""
    ensures forall i :: 0 <= i < |cs| && t in cs[i].types && (forall j :: 0 <= j < i ==> t !in cs[j].types) ==> r == cs[i].longName
  {
    if cs == [] then ""
    else if t in cs[0].types then cs[0].longName
    else
      assert forall i :: 1 <= i < |cs| ==> cs[i] == cs[1..][i - 1];
      FirstWithType(cs[1..], t)
  }

  /** The street line: `${street_number} ${route}`.trim(). */
  function StreetLine(components: Option<seq<AddressComponent>>): string {
    Trim(GetComponent(components, "street_number") + " " + GetComponent(components, "route"))
  }

  /** The street line of a place with neither a number nor a route is empty. */
  lemma StreetLineOfNothing(components: Option<seq<AddressComponent>>)
    requires GetComponent(components, "street_number") == "" && GetComponent(components, "route") == ""
    ensures StreetLine(components) == ""
  {
    var s := GetComponent(components, "street_number") + " " + GetComponent(components, "route");
    assert s == " ";
    assert IsSpace(s[0]) && s[1..] == [];
    assert TrimStart(s) == [];
    assert TrimEnd([]) == [];
  }

  /** A number and a route without white space at their outer ends are joined by one space. */
  lemma StreetLineJoins(components: Option<seq<AddressComponent>>)
    requires GetComponent(components, "street_number") != "" && GetComponent(components, "route") != ""
    requires !IsSpace(GetComponent(components, "street_number")[0])
    requires var r := GetComponent(components, "route"); !IsSpace(r[|r| - 1])
    ensures StreetLine(components) == GetComponent(components, "street_number") + " " + GetComponent(components, "route")
  {
    var s := GetComponent(components, "street_number") + " " + GetComponent(components, "route");
    TrimIdentity(s);
  }

  /** The five fields an autocomplete fills: street, city, state, country, postal code. */
  function PlaceFields(components: Option<seq<AddressComponent>>): (r: seq<string>)
    ensures |r| == 5
  {
    [StreetLine(components), GetComponent(components, "locality"), GetComponent(components, "administrative_area_level_1"),
     GetComponent(components, "country"), GetComponent(components, "postal_code")]
  }

  /** Five distinct keys. */
  predicate DistinctKeys(a: string, b: string, c: string, d: string, e: string) {
    a != b && a != c && a != d && a != e && b != c && b != d && b != e && c != d && c != e && d != e
  }

  /** Keys that share a prefix are as distinct as their endings. */
  lemma PrefixCancels(p: string, a: string, b: string)
    requires a != b
    ensures p + a != p + b
  {
    assert (p + a)[|p|..] == a;
    assert (p + b)[|p|..] == b;
  }

  /** The five place keys of a section, such as `cust_mailing_city`, are five distinct keys. */
  lemma PlaceKeysDistinct(p: string)
    ensures DistinctKeys(p + "address", p + "city", p + "state", p + "country", p + "postal")
  {
    PrefixCancels(p, "address", "city");
    PrefixCancels(p, "address", "state");
    PrefixCancels(p, "address", "country");
    PrefixCancels(p, "address", "postal");
    PrefixCancels(p, "city", "state");
    PrefixCancels(p, "city", "country");
    PrefixCancels(p, "city", "postal");
    PrefixCancels(p, "state", "country");
    PrefixCancels(p, "state", "postal");
    PrefixCancels(p, "country", "postal");
  }

  /**
   * Writes the five place fields of a section whose keys start with p: the
   * street under `{p}address`, then city, state, country and postal code.
   */
  function SetPlaceFields(r: Record, p: string, components: Option<seq<AddressComponent>>): Record {
    r[p + "address" := Str(StreetLine(components))]
     [p + "city" := Str(GetComponent(components, "locality"))]
     [p + "state" := Str(GetComponent(components, "administrative_area_level_1"))]
     [p + "country" := Str(GetComponent(components, "country"))]
     [p + "postal" := Str(GetComponent(components, "postal_code"))]
  }

  /** Each of the five keys gets its component, and no other key changes. */
  lemma SetPlaceFieldsSpec(r: Record, p: string, components: Option<seq<AddressComponent>>)
    ensures var t := SetPlaceFields(r, p, components);
            && Get(t, p + "address") == Str(StreetLine(components))
            && Get(t, p + "city") == Str(GetComponent(components, "locality"))
            && Get(t, p + "state") == Str(GetComponent(components, "administrative_area_level_1"))
            && Get(t, p + "country") == Str(GetComponent(components, "country"))
            && Get(t, p + "postal") == Str(GetComponent(components, "postal_code"))
            && forall k :: k != p + "address" && k != p + "city" && k != p + "state" && k != p + "country" && k != p + "postal" ==>
                 Get(t, k) == Get(r, k)
  {
    PlaceKeysDistinct(p);
    var a, c, s, n, z := p + "address", p + "city", p + "state", p + "country", p + "postal";
    var r1 := WithField(r, a, Str(StreetLine(components)));
    var r2 := WithField(r1, c, Str(GetComponent(components, "locality")));
    var r3 := WithField(r2, s, Str(GetComponent(components, "administrative_area_level_1")));
    var r4 := WithField(r3, n, Str(GetComponent(components, "country")));
    var t := WithField(r4, z, Str(GetComponent(components, "postal_code")));
    assert t == SetPlaceFields(r, p, components);
  }

  // Customer reference numbers

  /** One entry of the fetched customer list: `{ value: cust_name, label: cust_name, refNo: cust_ref_no }`. */
  datatype CustomerOption = CustomerOption(name: string, refNo: string)

  /** `{ value, label }` of a select option (the label as `caption`). */
  datatype SelectOption = SelectOption(value: string, caption: string)

  /**
   * The reference-number options for the selected customer name: none for an
   * empty name, otherwise the reference number of the first customer with
   * exactly that name, or none when no customer has it.
   */
  function RefNoOptions(customer: Val, customers: seq<CustomerOption>): (r: seq<SelectOption>)
    ensures !Truthy(customer) ==> r == []
    ensures Truthy(customer) && (forall i :: 0 <= i < |customers| ==> Str(customers[i].name) != customer) ==> r == []
    ensures forall i :: 0 <= i < |customers| && Truthy(customer) && Str(customers[i].name) == customer
                          && (forall j :: 0 <= j < i ==> Str(customers[j].name) != customer) ==>
              r == [SelectOption(customers[i].refNo, customers[i].refNo)]
  {
    if !Truthy(customer) then []
    else
      match FindCustomer(customers, customer)
      case None => []
      case Some(i) => [SelectOption(customers[i].refNo, customers[i].refNo)]
  }

  function FindCustomer(customers: seq<CustomerOption>, name: Val): (r: Option<nat>)
    ensures r.Some? ==> r.value < |customers| && Str(customers[r.value].name) == name
                        && forall j :: 0 <= j < r.value ==> Str(customers[j].name) != name
    ensures r.None? ==> forall i :: 0 <= i < |customers| ==> Str(customers[i].name) != name
  {
    if customers == [] then None
    else if Str(customers[0].name) == name then Some(0)
    else
      var r := FindCustomer(customers[1..], name);
      assert forall i :: 1 <= i < |customers| ==> customers[i] == customers[1..][i - 1];
      if r.Some? then Some(r.value + 1) else None
  }

  /** There is at most one option, and it carries the reference number of a customer with that name. */
  lemma RefNoOptionsAtMostOne(customer: Val, customers: seq<CustomerOption>)
    ensures |RefNoOptions(customer, customers)| <= 1
    ensures forall o :: o in RefNoOptions(customer, customers) ==>
              o.value == o.caption && exists c :: c in customers && Str(c.name) == customer && c.refNo == o.value
  {
    if Truthy(customer) {
      match FindCustomer(customers, customer)
      case None =>
      case Some(i) =>
        assert customers[i] in customers;
    }
  }

  // Field errors

  /**
   * For a string field (or a string-or-number field holding a string)
   * without a refinement, the stored error is "" exactly
   * when every declared check passes, and otherwise the message of the first
   * check that fails.
   */
  lemma StringFieldError(schema: ObjectSchema, r: Record, field: string, checks: seq<StrCheck>, optional: bool, isEmail: string -> bool)
    requires RuleOf(schema.shape, field) == Some(Rule(StringType(checks), optional))
             || RuleOf(schema.shape, field) == Some(Rule(StringOrNumber(checks), optional))
    requires schema.refinement.None? || schema.refinement.value.path != field
    requires Get(r, field).Str?
    requires forall i :: 0 <= i < |checks| ==> checks[i].msg != ""
    ensures FieldError(schema, r, field, isEmail) == "" <==>
              forall i :: 0 <= i < |checks| ==> StrCheckPasses(checks[i], Get(r, field).s, isEmail)
  {
    var s := Get(r, field).s;
    if forall i :: 0 <= i < |checks| ==> StrCheckPasses(checks[i], s, isEmail) {
    } else {
      var own := StrIssues(checks, s, isEmail);
      assert OwnIssues(schema, r, field, isEmail) == own;
      assert own != [];
      StrIssuesMessages(checks, s, isEmail);
      assert own[0] in own;
    }
  }

  /** The first failing check of a string field without a refinement is the stored message. */
  lemma StringFieldFirstIssue(schema: ObjectSchema, r: Record, field: string, checks: seq<StrCheck>, optional: bool,
                              isEmail: string -> bool, k: nat)
    requires RuleOf(schema.shape, field) == Some(Rule(StringType(checks), optional))
             || RuleOf(schema.shape, field) == Some(Rule(StringOrNumber(checks), optional))
    requires schema.refinement.None? || schema.refinement.value.path != field
    requires Get(r, field).Str?
    requires k < |checks| && !StrCheckPasses(checks[k], Get(r, field).s, isEmail)
    requires forall i :: 0 <= i < k ==> StrCheckPasses(checks[i], Get(r, field).s, isEmail)
    ensures FieldError(schema, r, field, isEmail) == checks[k].msg
  {
    FirstFailingCheck(checks, Get(r, field).s, isEmail, k);
    assert OwnIssues(schema, r, field, isEmail) == StrIssues(checks, Get(r, field).s, isEmail);
  }

  /** A number field with a lower and an upper bound stores the message of the bound the value breaks. */
  lemma RangeFieldError(schema: ObjectSchema, r: Record, field: string, lo: int, loMsg: string, hi: int, hiMsg: string,
                        optional: bool, isEmail: string -> bool)
    requires RuleOf(schema.shape, field) == Some(Rule(NumberType([MinNum(lo, loMsg), MaxNum(hi, hiMsg)]), optional))
    requires schema.refinement.None? || schema.refinement.value.path != field
    requires Get(r, field).Num?
    ensures FieldError(schema, r, field, isEmail)
            == if Get(r, field).n < lo then loMsg else if Get(r, field).n > hi then hiMsg else ""
  {
    var checks := [MinNum(lo, loMsg), MaxNum(hi, hiMsg)];
    var n := Get(r, field).n;
    assert checks[1..] == [MaxNum(hi, hiMsg)];
    assert [MaxNum(hi, hiMsg)][1..] == [];
    assert OwnIssues(schema, r, field, isEmail) == NumIssues(checks, n);
  }

  /** A value of the wrong type is reported with zod's type message. */
  lemma NumberFieldWrongType(schema: ObjectSchema, r: Record, field: string, checks: seq<NumCheck>, optional: bool,
                             isEmail: string -> bool)
    requires RuleOf(schema.shape, field) == Some(Rule(NumberType(checks), optional))
    requires !Get(r, field).Num? && !(optional && Get(r, field) == Undefined)
    ensures FieldError(schema, r, field, isEmail) == TypeIssue("number", Get(r, field))
  {
    assert OwnIssues(schema, r, field, isEmail) == [TypeIssue("number", Get(r, field))];
  }

  /**
   * An enum field stores its one message for every failure: a missing
   * required value, a value of another type, or a string outside the options.
   */
  lemma EnumFieldError(schema: ObjectSchema, r: Record, field: string, options: seq<string>, msg: string, optional: bool,
                       isEmail: string -> bool)
    requires RuleOf(schema.shape, field) == Some(Rule(EnumType(options, msg), optional))
    requires schema.refinement.None? || schema.refinement.value.path != field
    ensures FieldError(schema, r, field, isEmail)
            == if (optional && Get(r, field) == Undefined) || (Get(r, field).Str? && Get(r, field).s in options) then "" else msg
  {
  }

  /** A string-or-number field accepts every number. */
  lemma UnionFieldAcceptsNumbers(schema: ObjectSchema, r: Record, field: string, checks: seq<StrCheck>, optional: bool,
                                 isEmail: string -> bool)
    requires RuleOf(schema.shape, field) == Some(Rule(StringOrNumber(checks), optional))
    requires schema.refinement.None? || schema.refinement.value.path != field
    requires Get(r, field).Num?
    ensures FieldError(schema, r, field, isEmail) == ""
  {
  }

  /**
   * A string field with two checks stores the message of the first one that
   * fails, in declared order, or "" when both pass.
   */
  lemma TwoCheckError(schema: ObjectSchema, r: Record, field: string, c0: StrCheck, c1: StrCheck, optional: bool,
                      s: string, isEmail: string -> bool)
    requires RuleOf(schema.shape, field) == Some(Rule(StringType([c0, c1]), optional))
    requires schema.refinement.None? || schema.refinement.value.path != field
    requires Get(r, field) == Str(s)
    ensures FieldError(schema, r, field, isEmail)
            == if !StrCheckPasses(c0, s, isEmail) then c0.msg
               else if !StrCheckPasses(c1, s, isEmail) then c1.msg
               else ""
  {
    assert [c0, c1][1..] == [c1];
    assert [c1][1..] == [];
    assert OwnIssues(schema, r, field, isEmail) == StrIssues([c0, c1], s, isEmail);
  }

  /** The same for three checks. */
  lemma ThreeCheckError(schema: ObjectSchema, r: Record, field: string, c0: StrCheck, c1: StrCheck, c2: StrCheck,
                        optional: bool, s: string, isEmail: string -> bool)
    requires RuleOf(schema.shape, field) == Some(Rule(StringType([c0, c1, c2]), optional))
    requires schema.refinement.None? || schema.refinement.value.path != field
    requires Get(r, field) == Str(s)
    ensures FieldError(schema, r, field, isEmail)
            == if !StrCheckPasses(c0, s, isEmail) then c0.msg
               else if !StrCheckPasses(c1, s, isEmail) then c1.msg
               else if !StrCheckPasses(c2, s, isEmail) then c2.msg
               else ""
  {
    assert [c0, c1, c2][1..] == [c1, c2];
    assert [c1, c2][1..] == [c2];
    assert [c2][1..] == [];
    assert StrIssues([c2], s, isEmail) == if StrCheckPasses(c2, s, isEmail) then [] else [c2.msg];
    assert StrIssues([c1, c2], s, isEmail)
           == (if StrCheckPasses(c1, s, isEmail) then [] else [c1.msg]) + StrIssues([c2], s, isEmail);
    assert OwnIssues(schema, r, field, isEmail) == StrIssues([c0, c1, c2], s, isEmail);
  }

  /** `z.string().max(n, m1).regex(/^[...]*$/, m2)`, optional or not. */
  predicate StarRule(rule: Rule) {
    rule.t.StringType? && |rule.t.checks| == 2 && rule.t.checks[0].MaxLen? && rule.t.checks[1].Regex?
    && rule.t.checks[1].p.Star?
  }

  /**
   * In a schema whose every field is a bounded `[...]*` string, an empty
   * string is never reported, whatever the field.
   */
  lemma StarRulesAcceptEmpty(schema: ObjectSchema, r: Record, field: string, isEmail: string -> bool)
    requires forall k :: k in schema.shape ==> StarRule(schema.shape[k])
    requires schema.refinement.None?
    requires Get(r, field) == Str("")
    ensures FieldError(schema, r, field, isEmail) == ""
  {
    if field in schema.shape {
      var rule := schema.shape[field];
      assert StarRule(rule);
      assert rule == Rule(StringType([rule.t.checks[0], rule.t.checks[1]]), rule.optional);
      TwoCheckError(schema, r, field, rule.t.checks[0], rule.t.checks[1], rule.optional, "", isEmail);
    }
  }

  /** Every reported string issue is the message of one of the checks. */
  lemma {:induction false} StrIssuesMessages(checks: seq<StrCheck>, s: string, isEmail: string -> bool)
    ensures forall m :: m in StrIssues(checks, s, isEmail) ==> exists i :: 0 <= i < |checks| && checks[i].msg == m
  {
    if checks != [] {
      StrIssuesMessages(checks[1..], s, isEmail);
      forall m | m in StrIssues(checks, s, isEmail)
        ensures exists i :: 0 <= i < |checks| && checks[i].msg == m
      {
        if m in StrIssues(checks[1..], s, isEmail) {
          var i :| 0 <= i < |checks[1..]| && checks[1..][i].msg == m;
          assert checks[i + 1].msg == m;
        } else {
          assert checks[0].msg == m;
        }
      }
    }
  }
}
