/** The shape check that every configuration mapping goes through before it is used. */
module Validation {
  import opened Values

  /** The `ConfigError`s the extension raises. Shape errors name the field that failed;
      the two conflict errors have fixed messages. */
  datatype ConfigError =
    | NotADictionary(title: string)
    | NonStringKey(title: string, key: Key)
    | ArgsWithProjects
    | ArgsWithGlobalArgs

  predicate IsShapeError(e: ConfigError) {
    e.NotADictionary? || e.NonStringKey?
  }

  /** Either the call returned normally, or it raised the given `ConfigError`. */
  datatype Outcome = Pass | Fail(error: ConfigError)

  /** An entry whose key is not a string: the value is never looked at. */
  predicate NonStringEntry(entry: (Key, Value)) {
    entry.0.OtherKey?
  }

  /** Checks that `d` is exactly a `dict` and that every key is a string, reporting the
      first offending key in iteration order; values are validated elsewhere. */
  function AssertIsDictionaryWithStringKeys(d: Value, title: string): (r: Outcome)
    ensures r.Pass? <==> IsExactDict(d) && forall i :: 0 <= i < |d.items| ==> d.items[i].0.StrKey?
    ensures r.Fail? ==> IsShapeError(r.error) && r.error.title == title
    ensures !IsExactDict(d) ==> r == Fail(NotADictionary(title))
    ensures IsExactDict(d) && r.Fail? ==>
      exists i :: 0 <= i < |d.items| && r.error == NonStringKey(title, d.items[i].0) &&
        d.items[i].0.OtherKey? && forall j :: 0 <= j < i ==> d.items[j].0.StrKey?
  {
    if !IsExactDict(d) then
      Fail(NotADictionary(title))
    else
      match FirstWhere(d.items, NonStringEntry)
      case None => Pass
      case Some(i) => Fail(NonStringKey(title, d.items[i].0))
  }

  /** Only the keys of a mapping decide the verdict: its values are never examined. */
  lemma ValuesNeverInspected(exact: bool, a: seq<(Key, Value)>, b: seq<(Key, Value)>, title: string)
    requires Keys(a) == Keys(b)
    ensures AssertIsDictionaryWithStringKeys(Dict(exact, a), title)
         == AssertIsDictionaryWithStringKeys(Dict(exact, b), title)
  {
    assert forall i :: 0 <= i < |a| ==> a[i].0 == Keys(a)[i] == Keys(b)[i] == b[i].0;
    var ra := FirstWhere(a, NonStringEntry);
    if ra.Some? {
      FirstWhereAt(b, NonStringEntry, ra.value);
    } else {
      assert FirstWhere(b, NonStringEntry).None?;
    }
  }
}
