/** Configuration values as the Sphinx host hands them to the extension, reduced to what
    the extension looks at: whether a value is exactly a `dict`, which keys are strings,
    and the order in which a mapping's entries are iterated. */
module Values {

  datatype Option<+T> = None | Some(value: T)

  /** A dictionary key: a string, or any other hashable object (kept only by its `str`). */
  datatype Key = StrKey(text: string) | OtherKey(repr: string)

  /** A configuration value. `Dict(exact, items)` is a mapping whose entries are listed in
      insertion (iteration) order; `exact` is false for an instance of a proper subclass of
      `dict`. Anything that is not a mapping (a list, a number, `None`, ...) is an `Atom`.
      A list of entries that repeats a key can be written down but stands for no Python
      dictionary: `DistinctKeys` says which values are genuine, and the lemmas that rely on
      it say so in their `requires`. */
  datatype Value = Dict(exact: bool, items: seq<(Key, Value)>) | Atom(repr: string)

  /** The default of all three configuration values that the extension registers. */
  const EmptyDict: Value := Dict(true, [])

  /** `type(v) is dict`: subclasses of `dict` do not qualify. */
  predicate IsExactDict(v: Value) {
    v.Dict? && v.exact
  }

  /** Truthiness of a value that has passed validation: a mapping is true when non-empty. */
  predicate NonEmpty(v: Value) {
    v.Dict? && |v.items| > 0
  }

  /** The text `str(key)` produces; for a string key, the string itself. */
  function KeyText(k: Key): string {
    match k
    case StrKey(t) => t
    case OtherKey(r) => r
  }

  /** The keys of a mapping, in iteration order. */
  function Keys(items: seq<(Key, Value)>): seq<Key> {
    seq(|items|, i requires 0 <= i < |items| => items[i].0)
  }

  /** The names produced by `for name in projects`, in iteration order. */
  function ProjectNames(projects: Value): seq<string> {
    if projects.Dict? then
      seq(|projects.items|, i requires 0 <= i < |projects.items| => KeyText(projects.items[i].0))
    else
      []
  }

  /** Each key occurs once, as in every Python dictionary. */
  predicate DistinctKeys(items: seq<(Key, Value)>) {
    forall i, j :: 0 <= i < j < |items| ==> items[i].0 != items[j].0
  }

  /** The index of the first element of `s`, in iteration order, that `bad` holds of: the
      element at which a loop that tests each element and stops at the first bad one stops. */
  function FirstWhere<T>(s: seq<T>, bad: T -> bool): (r: Option<nat>)
    ensures r.None? <==> forall i :: 0 <= i < |s| ==> !bad(s[i])
    ensures r.Some? ==> r.value < |s| && bad(s[r.value])
    ensures r.Some? ==> forall i :: 0 <= i < r.value ==> !bad(s[i])
  {
    if s == [] then None
    else if bad(s[0]) then Some(0)
    else match FirstWhere(s[1..], bad)
      case None => None
      case Some(k) => Some(k + 1)
  }

  /** The first bad element is determined by where it is, whatever else follows it. */
  lemma FirstWhereAt<T>(s: seq<T>, bad: T -> bool, i: nat)
    requires i < |s| && bad(s[i])
    requires forall j :: 0 <= j < i ==> !bad(s[j])
    ensures FirstWhere(s, bad) == Some(i)
  {
  }
}
