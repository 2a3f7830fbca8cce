/**
 * The subset of zod the form sections declare: `z.object` over string,
 * number, boolean, enum and string-or-number fields with length, range,
 * regex and e-mail checks, `.optional()`, and one cross-field `.refine`.
 * `FieldError` is what a section stores in `errors[field]`: the message of
 * the first issue whose path starts with `field`, or "" when there is none.
 */
module Schema {
  import opened Wrappers
  import opened Strings
  import opened Values
  import opened Patterns

  datatype StrCheck =
    | MinLen(min: nat, msg: string)
    | MaxLen(max: nat, msg: string)
    | Regex(p: Pattern, msg: string)
    | Email(msg: string)

  datatype NumCheck =
    | MinNum(min: int, msg: string)
    | MaxNum(max: int, msg: string)

  datatype FieldType =
    | StringType(checks: seq<StrCheck>)
    | NumberType(numChecks: seq<NumCheck>)
    | BooleanType
    /** `z.enum(options, { message })` or with an error map that always answers `msg`. */
    | EnumType(options: seq<string>, msg: string)
    /** `z.union([z.string()..., z.number()])`. */
    | StringOrNumber(checks: seq<StrCheck>)

  datatype Rule = Rule(t: FieldType, optional: bool)

  /** `.refine(d => d[a] === d[b], { message, path: [path] })`. */
  datatype Refinement = SameValue(a: string, b: string, path: string, msg: string)

  /**
   * `z.object(shape)`, with an optional refinement. The shape is a map: an
   * error is looked up by field, so the order of the keys never matters.
   */
  datatype ObjectSchema = ObjectSchema(shape: map<string, Rule>, refinement: Option<Refinement>)

  /** zod's message for a value of the wrong type. */
  function TypeIssue(expected: string, v: Val): string {
    if v == Undefined then "Required" else "Expected " + expected + ", received " + TypeName(v)
  }

  /** The messages of the failing string checks, in declared order (string checks never stop early). */
  function StrIssues(checks: seq<StrCheck>, s: string, isEmail: string -> bool): (r: seq<string>)
    ensures |r| <= |checks|
    ensures r == [] <==> forall i :: 0 <= i < |checks| ==> StrCheckPasses(checks[i], s, isEmail)
  {
    if checks == [] then []
    else
      var rest := StrIssues(checks[1..], s, isEmail);
      assert forall i :: 1 <= i < |checks| ==> checks[i] == checks[1..][i - 1];
      (if StrCheckPasses(checks[0], s, isEmail) then [] else [StrCheckMessage(checks[0])]) + rest
  }

  predicate StrCheckPasses(c: StrCheck, s: string, isEmail: string -> bool) {
    match c
    case MinLen(n, _) => |s| >= n
    case MaxLen(n, _) => |s| <= n
    case Regex(p, _) => Matches(p, s)
    case Email(_) => isEmail(s)
  }

  function StrCheckMessage(c: StrCheck): string {
    c.msg
  }

  function NumIssues(checks: seq<NumCheck>, n: int): (r: seq<string>)
    ensures |r| <= |checks|
    ensures r == [] <==> forall i :: 0 <= i < |checks| ==> NumCheckPasses(checks[i], n)
  {
    if checks == [] then []
    else
      var rest := NumIssues(checks[1..], n);
      assert forall i :: 1 <= i < |checks| ==> checks[i] == checks[1..][i - 1];
      (if NumCheckPasses(checks[0], n) then [] else [checks[0].msg]) + rest
  }

  predicate NumCheckPasses(c: NumCheck, n: int) {
    match c
    case MinNum(m, _) => n >= m
    case MaxNum(m, _) => n <= m
  }

  /** The issues one field reports for its value. */
  function Issues(rule: Rule, v: Val, isEmail: string -> bool): seq<string> {
    if rule.optional && v == Undefined then []
    else
      match rule.t
      case StringType(checks) => if v.Str? then StrIssues(checks, v.s, isEmail) else [TypeIssue("string", v)]
      case NumberType(checks) => if v.Num? then NumIssues(checks, v.n) else [TypeIssue("number", v)]
      case BooleanType => if v.Bool? then [] else [TypeIssue("boolean", v)]
      case EnumType(options, msg) => if v.Str? && v.s in options then [] else [msg]
      case StringOrNumber(checks) =>
        if v.Num? then []
        else if v.Str? then StrIssues(checks, v.s, isEmail)
        else ["Invalid input"]
  }

  /**
   * The value has the wrong type for the field (or is not one of the enum's
   * options). Such an issue aborts the object parse, and an aborted object
   * never reaches its refinement; failed length, range, regex and e-mail
   * checks do not abort.
   */
  predicate Aborts(rule: Rule, v: Val) {
    !(rule.optional && v == Undefined)
    && match rule.t
       case StringType(_) => !v.Str?
       case NumberType(_) => !v.Num?
       case BooleanType => !v.Bool?
       case EnumType(options, _) => !(v.Str? && v.s in options)
       case StringOrNumber(_) => !v.Str? && !v.Num?
  }

  /** Some field of the object aborts the parse. */
  predicate Aborted(shape: map<string, Rule>, r: Record) {
    exists k :: k in shape && Aborts(shape[k], Get(r, k))
  }

  /** The rule the shape declares for field, if any. */
  function RuleOf(shape: map<string, Rule>, field: string): (r: Option<Rule>)
    ensures r.Some? <==> field in shape
    ensures r.Some? ==> r.value == shape[field]
  {
    if field in shape then Some(shape[field]) else None
  }

  /** The issues of field's own rule. */
  function OwnIssues(schema: ObjectSchema, r: Record, field: string, isEmail: string -> bool): seq<string> {
    match RuleOf(schema.shape, field)
    case None => []
    case Some(rule) => Issues(rule, Get(r, field), isEmail)
  }

  /** The refinement is reached, fails, and reports its issue under field. */
  predicate RefinementFails(schema: ObjectSchema, r: Record, field: string) {
    schema.refinement.Some?
    && schema.refinement.value.path == field
    && !Aborted(schema.shape, r)
    && Get(r, schema.refinement.value.a) != Get(r, schema.refinement.value.b)
  }

  /**
   * `result.error.errors.find(err => err.path[0] === field)?.message ?? ''`:
   * the refinement issue is listed after the field issues, so field's own
   * first issue wins over it.
   */
  function FieldError(schema: ObjectSchema, r: Record, field: string, isEmail: string -> bool): (e: string)
    ensures OwnIssues(schema, r, field, isEmail) != [] ==> e == OwnIssues(schema, r, field, isEmail)[0]
    ensures OwnIssues(schema, r, field, isEmail) == [] && RefinementFails(schema, r, field) ==> e == schema.refinement.value.msg
    ensures OwnIssues(schema, r, field, isEmail) == [] && !RefinementFails(schema, r, field) ==> e == ""
  {
    var own := OwnIssues(schema, r, field, isEmail);
    if own != [] then own[0]
    else if RefinementFails(schema, r, field) then schema.refinement.value.msg
    else ""
  }

  /** `schema.safeParse(r).success`: no field reports an issue and the refinement, if any, holds. */
  predicate Parses(schema: ObjectSchema, r: Record, isEmail: string -> bool) {
    && (forall k :: k in schema.shape ==> Issues(schema.shape[k], Get(r, k), isEmail) == [])
    && (schema.refinement.Some? ==> Get(r, schema.refinement.value.a) == Get(r, schema.refinement.value.b))
  }

  /** A draft that parses has no error on any field, so clearing the error on success agrees with `FieldError`. */
  lemma ParsedHasNoErrors(schema: ObjectSchema, r: Record, field: string, isEmail: string -> bool)
    requires Parses(schema, r, isEmail)
    ensures FieldError(schema, r, field, isEmail) == ""
  {
    if field in schema.shape {
      assert Issues(schema.shape[field], Get(r, field), isEmail) == [];
    }
  }

  /** Without a refinement on field, its error is the first issue its own rule reports, or "". */
  lemma FieldErrorByRule(schema: ObjectSchema, r: Record, field: string, rule: Rule, isEmail: string -> bool)
    requires RuleOf(schema.shape, field) == Some(rule)
    requires schema.refinement.None? || schema.refinement.value.path != field
    ensures var issues := Issues(rule, Get(r, field), isEmail);
            FieldError(schema, r, field, isEmail) == if issues != [] then issues[0] else ""
  {
    assert OwnIssues(schema, r, field, isEmail) == Issues(rule, Get(r, field), isEmail);
  }

  /** A field the schema does not declare never gets an error unless the refinement reports there. */
  lemma UndeclaredFieldHasNoError(schema: ObjectSchema, r: Record, field: string, isEmail: string -> bool)
    requires field !in schema.shape
    requires schema.refinement.None? || schema.refinement.value.path != field
    ensures FieldError(schema, r, field, isEmail) == ""
  {
  }

  /**
   * Without a refinement the error on a field depends on that field's value
   * alone: what the rest of the draft holds makes no difference.
   */
  lemma FieldErrorIsLocal(schema: ObjectSchema, r: Record, r': Record, field: string, isEmail: string -> bool)
    requires schema.refinement.None?
    requires Get(r, field) == Get(r', field)
    ensures FieldError(schema, r, field, isEmail) == FieldError(schema, r', field, isEmail)
  {
  }

  /**
   * Without refinements, two fields declared with the same rule and holding
   * the same value get the same error, whatever schema and draft they are in.
   */
  lemma SameRuleSameError(s1: ObjectSchema, r1: Record, f1: string, s2: ObjectSchema, r2: Record, f2: string,
                          isEmail: string -> bool)
    requires s1.refinement.None? && s2.refinement.None?
    requires RuleOf(s1.shape, f1) == RuleOf(s2.shape, f2)
    requires Get(r1, f1) == Get(r2, f2)
    ensures FieldError(s1, r1, f1, isEmail) == FieldError(s2, r2, f2, isEmail)
  {
  }

  /** The first failing check of a declared string field is the stored message. */
  lemma FirstFailingCheck(checks: seq<StrCheck>, s: string, isEmail: string -> bool, k: nat)
    requires k < |checks| && !StrCheckPasses(checks[k], s, isEmail)
    requires forall i :: 0 <= i < k ==> StrCheckPasses(checks[i], s, isEmail)
    ensures StrIssues(checks, s, isEmail) != [] && StrIssues(checks, s, isEmail)[0] == checks[k].msg
    decreases k
  {
    if k > 0 {
      assert StrCheckPasses(checks[0], s, isEmail);
      forall i | 0 <= i < k - 1
        ensures StrCheckPasses(checks[1..][i], s, isEmail)
      {
        assert checks[1..][i] == checks[i + 1];
      }
      FirstFailingCheck(checks[1..], s, isEmail, k - 1);
    }
  }

  // Schemas without an e-mail check

  predicate CheckEmailFree(c: StrCheck) { !c.Email? }

  predicate RuleEmailFree(rule: Rule) {
    match rule.t
    case StringType(checks) => forall i :: 0 <= i < |checks| ==> CheckEmailFree(checks[i])
    case StringOrNumber(checks) => forall i :: 0 <= i < |checks| ==> CheckEmailFree(checks[i])
    case _ => true
  }

  /** No field of the schema declares `.email()`. */
  predicate EmailFree(schema: ObjectSchema) {
    forall k :: k in schema.shape ==> RuleEmailFree(schema.shape[k])
  }

  /** The e-mail test handed to schemas that declare no `.email()` check. */
  const NoEmail: string -> bool := s => false

  lemma {:induction false} StrIssuesIgnoreEmail(checks: seq<StrCheck>, s: string, e1: string -> bool, e2: string -> bool)
    requires forall i :: 0 <= i < |checks| ==> CheckEmailFree(checks[i])
    ensures StrIssues(checks, s, e1) == StrIssues(checks, s, e2)
  {
    if checks != [] {
      StrIssuesIgnoreEmail(checks[1..], s, e1, e2);
    }
  }

  /** For a schema without e-mail checks, the stored error does not depend on the e-mail test. */
  lemma FieldErrorIgnoresEmail(schema: ObjectSchema, r: Record, field: string, e1: string -> bool, e2: string -> bool)
    requires EmailFree(schema)
    ensures FieldError(schema, r, field, e1) == FieldError(schema, r, field, e2)
  {
    match RuleOf(schema.shape, field)
    case None =>
    case Some(rule) =>
      assert RuleEmailFree(rule);
      match rule.t
      case StringType(checks) => StrIssuesIgnoreEmail(checks, StrOf(r, field), e1, e2);
      case StringOrNumber(checks) => StrIssuesIgnoreEmail(checks, StrOf(r, field), e1, e2);
      case _ =>
  }
}
