/**
 * The part of the zod validation library that the forms' schemas use:
 * string length checks, arrays of strings, booleans with a default and
 * unconstrained fields. A schema turns an input into a parsed value or a
 * non-empty list of issues, one per failed rule, in declaration order.
 */
module Schema {
  import opened Wrappers

  /** A JavaScript value as a schema sees it. `Other` is any object the schemas never look into. */
  datatype Value = Undefined | Null | Bool(b: bool) | Num(n: int) | Str(s: string) | Arr(items: seq<Value>) | Other

  /** One validation issue: a value of the wrong type, or a failed rule with its message. */
  datatype Issue = InvalidType(path: string) | Rule(path: string, message: string)

  /** A rule on a string: `.min(n, message)` or `.max(n, message)`, counted in characters. */
  datatype StringCheck = Min(n: nat, message: string) | Max(n: nat, message: string)

  /** A property of a plain object; a missing key reads as `undefined`. */
  function Field(obj: map<string, Value>, key: string): Value
  {
    if key in obj then obj[key] else Undefined
  }

  predicate Satisfies(s: string, c: StringCheck)
  {
    match c
    case Min(n, _) => |s| >= n
    case Max(n, _) => |s| <= n
  }

  /** The issues of the checks `s` fails, each carrying its check's message. */
  function CheckIssues(path: string, s: string, checks: seq<StringCheck>): (r: seq<Issue>)
    ensures r == [] <==> forall i | 0 <= i < |checks| :: Satisfies(s, checks[i])
    ensures forall j | 0 <= j < |r| :: exists i | 0 <= i < |checks| :: !Satisfies(s, checks[i]) && r[j] == Rule(path, checks[i].message)
    ensures forall i | 0 <= i < |checks| :: !Satisfies(s, checks[i]) ==> Rule(path, checks[i].message) in r
  {
    if checks == [] then []
    else
      var rest := CheckIssues(path, s, checks[1..]);
      assert forall i | 1 <= i < |checks| :: checks[i] == checks[1..][i - 1];
      if Satisfies(s, checks[0]) then rest else [Rule(path, checks[0].message)] + rest
  }

  /** A minimum and a maximum together: the length lies between them. */
  lemma MinMaxChecks(min: nat, minMessage: string, max: nat, maxMessage: string)
    ensures forall s: string :: (forall i | 0 <= i < 2 :: Satisfies(s, [Min(min, minMessage), Max(max, maxMessage)][i])) <==> min <= |s| <= max
  {
    forall s: string
      ensures (forall i | 0 <= i < 2 :: Satisfies(s, [Min(min, minMessage), Max(max, maxMessage)][i])) <==> min <= |s| <= max
    {
      assert Satisfies(s, [Min(min, minMessage), Max(max, maxMessage)][0]) <==> |s| >= min;
      assert Satisfies(s, [Min(min, minMessage), Max(max, maxMessage)][1]) <==> |s| <= max;
    }
  }

  /** The issues of a minimum and a maximum check, in that order. */
  lemma MinMaxIssues(path: string, s: string, min: nat, minMessage: string, max: nat, maxMessage: string)
    ensures CheckIssues(path, s, [Min(min, minMessage), Max(max, maxMessage)]) ==
              (if |s| < min then [Rule(path, minMessage)] else []) + (if |s| > max then [Rule(path, maxMessage)] else [])
  {
  }

  /** `z.string().min(min, minMessage).max(max, maxMessage)`. */
  function LengthField(path: string, v: Value, min: nat, minMessage: string, max: nat, maxMessage: string): (r: Result<string, seq<Issue>>)
    ensures r.Success? <==> v.Str? && min <= |v.s| <= max
    ensures r.Success? ==> r.value == v.s
    ensures r.Failure? ==> r.error != []
    ensures !v.Str? ==> r == Failure([InvalidType(path)])
    ensures v.Str? && |v.s| < min && |v.s| <= max ==> r == Failure([Rule(path, minMessage)])
    ensures v.Str? && |v.s| > max && |v.s| >= min ==> r == Failure([Rule(path, maxMessage)])
  {
    if !v.Str? then Failure([InvalidType(path)])
    else
      var issues := CheckIssues(path, v.s, [Min(min, minMessage), Max(max, maxMessage)]);
      MinMaxIssues(path, v.s, min, minMessage, max, maxMessage);
      assert |v.s| < min && |v.s| <= max ==> issues == [Rule(path, minMessage)];
      assert |v.s| > max && |v.s| >= min ==> issues == [Rule(path, maxMessage)];
      if issues == [] then Success(v.s) else Failure(issues)
  }

  /** `z.string()` followed by `checks`: a non-string is a type error and no check runs. */
  function StringField(path: string, v: Value, checks: seq<StringCheck>): (r: Result<string, seq<Issue>>)
    ensures r.Success? <==> v.Str? && forall i | 0 <= i < |checks| :: Satisfies(v.s, checks[i])
    ensures r.Success? ==> r.value == v.s
    ensures r.Failure? ==> r.error != []
    ensures r.Failure? ==> r.error == if v.Str? then CheckIssues(path, v.s, checks) else [InvalidType(path)]
  {
    if !v.Str? then Failure([InvalidType(path)])
    else
      var issues := CheckIssues(path, v.s, checks);
      if issues == [] then Success(v.s) else Failure(issues)
  }

  predicate AllStrings(items: seq<Value>)
  {
    forall i | 0 <= i < |items| :: items[i].Str?
  }

  /** One type error for every element that is not a string. */
  function ElementIssues(path: string, items: seq<Value>): (r: seq<Issue>)
    ensures r == [] <==> AllStrings(items)
    ensures |r| <= |items|
  {
    if items == [] then []
    else
      var rest := ElementIssues(path, items[1..]);
      assert AllStrings(items) <==> items[0].Str? && AllStrings(items[1..]) by {
        assert forall i | 1 <= i < |items| :: items[i] == items[1..][i - 1];
      }
      if items[0].Str? then rest else [InvalidType(path)] + rest
  }

  /** The strings held by an array of string values, in order. */
  function StringsOf(items: seq<Value>): (r: seq<string>)
    requires AllStrings(items)
    ensures |r| == |items|
    ensures forall i | 0 <= i < |items| :: r[i] == items[i].s
  {
    seq(|items|, i requires 0 <= i < |items| => items[i].s)
  }

  /** A list of strings as the array value a form hands to its schema. */
  function Strings(xs: seq<string>): (r: seq<Value>)
    ensures AllStrings(r)
    ensures StringsOf(r) == xs
  {
    seq(|xs|, i requires 0 <= i < |xs| => Str(xs[i]))
  }

  /**
   * `z.array(z.string())` with an optional `.min(minLength, message)`: a non-array is a type
   * error; otherwise the length rule and every element are checked.
   */
  function StringArrayField(path: string, v: Value, minLength: nat, message: string): (r: Result<seq<string>, seq<Issue>>)
    ensures r.Success? <==> v.Arr? && |v.items| >= minLength && AllStrings(v.items)
    ensures r.Success? ==> AllStrings(v.items) && r.value == StringsOf(v.items)
    ensures v.Arr? && |v.items| < minLength ==> r.Failure? && Rule(path, message) in r.error
    ensures r.Failure? ==> r.error != []
  {
    if !v.Arr? then Failure([InvalidType(path)])
    else
      var issues := (if |v.items| < minLength then [Rule(path, message)] else []) + ElementIssues(path, v.items);
      if issues == [] then Success(StringsOf(v.items)) else Failure(issues)
  }

  /** `z.boolean().default(d)`: `undefined` becomes `d`; anything else must be a boolean. */
  function BooleanField(path: string, v: Value, default: bool): (r: Result<bool, seq<Issue>>)
    ensures r.Success? <==> v.Undefined? || v.Bool?
    ensures r.Success? ==> r.value == if v.Undefined? then default else v.b
    ensures r.Failure? ==> r.error == [InvalidType(path)]
  {
    match v
    case Undefined => Success(default)
    case Bool(b) => Success(b)
    case _ => Failure([InvalidType(path)])
  }

  /** The issues a field result contributes to its object's list. */
  function IssuesOf<T>(r: Result<T, seq<Issue>>): (issues: seq<Issue>)
    ensures issues == [] <==> r.Success? || r.error == []
  {
    if r.Failure? then r.error else []
  }
}
