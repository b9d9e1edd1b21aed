/**
 * The class-validator decorators used by the DTO classes
 * (apps/api/src/endpoints/dto/endpoint.dto.ts,
 * apps/api/src/services/dto/create-service.dto.ts), as predicates on the
 * values the validation pipe sees, and the `ValidationError` a property with
 * failing decorators produces.
 */
module Rules {
  import opened Wrappers
  import opened ValidationErrors

  /** A JSON value as it reaches the validators, after the pipe's conversions (objects and `null` have no case). */
  datatype Value = Str(s: string) | Num(x: real) | Bool(b: bool) | Arr(items: seq<Value>)

  /** A number with no fractional part (`Number.isInteger`). */
  predicate IsInteger(x: real) {
    x.Floor as real == x
  }

  /** The decorators the DTOs use. */
  datatype Rule =
    | IsString
    | MinLength(min: nat)
    | StartsWithSlash(message: string)   // @Matches(/^\//, { message })
    | IsIn(allowed: seq<string>)
    | IsInt
    | Min(lower: nat)
    | Max(upper: nat)
    | IsArray
    | ArrayMaxSize(max: nat)
    | EachIsString                       // @IsString({ each: true })

  /** Whether decorator `r` accepts `v` (`None` is an absent property). */
  predicate Holds(r: Rule, v: Option<Value>) {
    v.Some? &&
    match r
    case IsString => v.value.Str?
    case MinLength(n) => v.value.Str? && |v.value.s| >= n
    case StartsWithSlash(_) => v.value.Str? && |v.value.s| > 0 && v.value.s[0] == '/'
    case IsIn(allowed) => v.value.Str? && v.value.s in allowed
    case IsInt => v.value.Num? && IsInteger(v.value.x)
    case Min(n) => v.value.Num? && v.value.x >= n as real
    case Max(n) => v.value.Num? && v.value.x <= n as real
    case IsArray => v.value.Arr?
    case ArrayMaxSize(n) => v.value.Arr? && |v.value.items| <= n
    case EachIsString =>
      if v.value.Arr? then forall i :: 0 <= i < |v.value.items| ==> v.value.items[i].Str?
      else v.value.Str?
  }

  /**
   * The key under which a failure appears in `constraints`.  `IsString` and
   * `EachIsString` share the key `isString`, as the two decorators do; no
   * property carries both, so no `constraints` object would need two
   * entries under one key.
   */
  function Key(r: Rule): string {
    match r
    case IsString => "isString"
    case MinLength(_) => "minLength"
    case StartsWithSlash(_) => "matches"
    case IsIn(_) => "isIn"
    case IsInt => "isInt"
    case Min(_) => "min"
    case Max(_) => "max"
    case IsArray => "isArray"
    case ArrayMaxSize(_) => "arrayMaxSize"
    case EachIsString => "isString"
  }

  function Digit(d: nat): char
    requires d < 10
  {
    "0123456789"[d]
  }

  /** The decimal numeral of `n`. */
  function NatToString(n: nat): (s: string)
    ensures |s| >= 1
  {
    if n < 10 then [Digit(n)] else NatToString(n / 10) + [Digit(n % 10)]
  }

  /** `xs.join(sep)`. */
  function Join(xs: seq<string>, sep: string): string {
    if xs == [] then "" else if |xs| == 1 then xs[0] else xs[0] + sep + Join(xs[1..], sep)
  }

  /**
   * The message for a failed decorator: the custom message where the DTO
   * gives one, otherwise class-validator's default wording.
   */
  function Message(r: Rule, property: string): string {
    match r
    case IsString => property + " must be a string"
    case MinLength(n) => property + " must be longer than or equal to " + NatToString(n) + " characters"
    case StartsWithSlash(message) => message
    case IsIn(allowed) => property + " must be one of the following values: " + Join(allowed, ", ")
    case IsInt => property + " must be an integer number"
    case Min(n) => property + " must not be less than " + NatToString(n)
    case Max(n) => property + " must not be greater than " + NatToString(n)
    case IsArray => property + " must be an array"
    case ArrayMaxSize(n) => property + " must contain no more than " + NatToString(n) + " elements"
    case EachIsString => "each value in " + property + " must be a string"
  }

  /**
   * One decorated property: its name, whether it carries `@IsOptional()`,
   * and its decorators in the order class-validator runs them (the order
   * TypeScript applies them: bottom to top).
   */
  datatype Field = Field(property: string, optional: bool, rules: seq<Rule>)

  predicate AllHold(rules: seq<Rule>, v: Option<Value>) {
    rules == [] || (Holds(rules[0], v) && AllHold(rules[1..], v))
  }

  lemma AllHoldOne(a: Rule, v: Option<Value>)
    ensures AllHold([a], v) <==> Holds(a, v)
  {
    assert [a][1..] == [];
  }

  lemma AllHoldTwo(a: Rule, b: Rule, v: Option<Value>)
    ensures AllHold([a, b], v) <==> Holds(a, v) && Holds(b, v)
  {
    assert [a, b][1..] == [b];
    AllHoldOne(b, v);
  }

  lemma AllHoldThree(a: Rule, b: Rule, c: Rule, v: Option<Value>)
    ensures AllHold([a, b, c], v) <==> Holds(a, v) && Holds(b, v) && Holds(c, v)
  {
    assert [a, b, c][1..] == [b, c];
    AllHoldTwo(b, c, v);
  }

  /** The (key, message) pairs of the decorators of `rules` that reject `v`. */
  function Failures(rules: seq<Rule>, property: string, v: Option<Value>): (fs: seq<(string, string)>)
    ensures fs == [] <==> AllHold(rules, v)
  {
    if rules == [] then []
    else
      (if Holds(rules[0], v) then [] else [(Key(rules[0]), Message(rules[0], property))])
        + Failures(rules[1..], property, v)
  }

  /**
   * The errors class-validator reports for one property: none when an
   * optional property is absent or all decorators accept it, otherwise one
   * `ValidationError` listing every failed decorator.
   */
  function CheckField(f: Field, v: Option<Value>): (errs: seq<ValidationError>)
    ensures errs == [] <==> (f.optional && v.None?) || AllHold(f.rules, v)
    ensures |errs| <= 1
    ensures errs != [] ==> errs[0].property == f.property && errs[0].children == []
    ensures errs != [] ==> |Messages(errs[0].constraints)| > 0
  {
    if f.optional && v.None? then []
    else
      var fs := Failures(f.rules, f.property, v);
      if fs == [] then [] else [ValidationError(f.property, Some(fs), [])]
  }

  /** A property with the single decorator `@IsIn(names)`. */
  lemma IsInFieldExactly(property: string, optional: bool, names: seq<string>, v: Option<Value>)
    ensures CheckField(Field(property, optional, [IsIn(names)]), v) == [] <==>
      if v.None? then optional else v.value.Str? && v.value.s in names
  {
    AllHoldOne(IsIn(names), v);
  }

  /** A property with the single decorator `@IsString()`. */
  lemma IsStringFieldExactly(property: string, optional: bool, v: Option<Value>)
    ensures CheckField(Field(property, optional, [IsString]), v) == [] <==>
      if v.None? then optional else v.value.Str?
  {
    AllHoldOne(IsString, v);
  }
}
