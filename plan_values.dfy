/**
 * Plan content. A plan is the dictionary the plan author returns
 * (event_name, date, time, location, activities, accommodations, notes,
 * reasoning, revision_reason, ...); its values are strings, lists of strings
 * or string-to-string dictionaries.
 */
module PlanValues {
  import opened Wrappers
  import opened Text

  datatype PlanValue =
    | Str(s: string)
    | Items(items: seq<string>)
    /** A dictionary, in insertion order. */
    | Table(entries: seq<(string, string)>)

  type Plan = map<string, PlanValue>

  /** Python truthiness: an empty string, list or dictionary is false. */
  predicate Truthy(v: PlanValue)
  {
    match v
    case Str(s) => s != []
    case Items(xs) => xs != []
    case Table(es) => es != []
  }

  /** Python's `repr` of a string, without escaping of quotes or backslashes. */
  function Quote(s: string): string
  {
    "'" + s + "'"
  }

  /** Python's `str(v)`, which is what an f-string inserts for `{v}`. */
  function Show(v: PlanValue): string
  {
    match v
    case Str(s) => s
    case Items(xs) => "[" + Join(", ", seq(|xs|, i requires 0 <= i < |xs| => Quote(xs[i]))) + "]"
    case Table(es) =>
      "{" + Join(", ", seq(|es|, i requires 0 <= i < |es| => Quote(es[i].0) + ": " + Quote(es[i].1))) + "}"
  }

  /**
   * What iterating over the value yields, as `", ".join(v)` sees it: the
   * characters of a string, the items of a list, the keys of a dictionary.
   */
  function Elements(v: PlanValue): (r: seq<string>)
    ensures v.Items? ==> r == v.items
  {
    match v
    case Str(s) => seq(|s|, i requires 0 <= i < |s| => [s[i]])
    case Items(xs) => xs
    case Table(es) => seq(|es|, i requires 0 <= i < |es| => es[i].0)
  }

  /** `plan.get(key)`. */
  function Lookup(plan: Plan, key: string): Option<PlanValue>
  {
    if key in plan then Some(plan[key]) else None
  }

  /** `plan.get(key, default)`. */
  function GetOr(plan: Plan, key: string, default: PlanValue): (v: PlanValue)
    ensures key in plan ==> v == plan[key]
    ensures key !in plan ==> v == default
  {
    if key in plan then plan[key] else default
  }
}
