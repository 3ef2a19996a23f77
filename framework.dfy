/** The host framework's side of the reconcilers: the attribute tree that
    nested configuration arrives in, and the diagnostics a handler reports. */
module Framework {
  import opened Wrappers
  import opened Seqs

  /** One attribute value as a handler sees it after a type assertion.
      A null or unknown string reads as "" (its ValueString), a null or
      unknown number as 0; `NullList` is a list-typed value that is null or
      unknown, which has no elements; `Other` is any kind of value the
      handlers never accept (booleans, sets, ...). */
  datatype Attr =
    | Str(str: string)
    | Int64(num: int)
    | List(elements: seq<Attr>)
    | NullList
    | Object(attributes: map<string, Attr>)
    | Other

  /** An entry of a response's diagnostics (AddError's summary and detail). */
  datatype Diagnostic = Diagnostic(summary: string, detail: string)

  /** `attrs[key].(types.String)` succeeds. */
  predicate HasString(attrs: map<string, Attr>, key: string) {
    key in attrs && attrs[key].Str?
  }

  /** `attrs[key].(types.Int64)` succeeds. */
  predicate HasInt64(attrs: map<string, Attr>, key: string) {
    key in attrs && attrs[key].Int64?
  }

  /** `a.(types.List)` succeeds. */
  predicate IsList(a: Attr) {
    a.List? || a.NullList?
  }

  /** `Elements()` of a list-typed value. */
  function ElementsOf(a: Attr): seq<Attr>
    requires IsList(a)
  {
    if a.List? then a.elements else []
  }

  /** `a.(types.String)` and its ValueString, or None when `a` is not a string. */
  function AsString(a: Attr): Option<string> {
    if a.Str? then Some(a.str) else None
  }

  /** The string elements of a list, in order, the others skipped. */
  function Strings(elements: seq<Attr>): seq<string> {
    FilterMap(AsString, elements)
  }

  /** The string elements of a list, in order, or None as soon as one element
      is not a string. */
  function AllStrings(elements: seq<Attr>): (r: Option<seq<string>>)
    ensures r.Some? <==> forall i | 0 <= i < |elements| :: elements[i].Str?
    ensures r.Some? ==> |r.value| == |elements| &&
                        forall i | 0 <= i < |elements| :: r.value[i] == elements[i].str
  {
    if forall i | 0 <= i < |elements| :: elements[i].Str?
    then Some(seq(|elements|, i requires 0 <= i < |elements| => elements[i].str))
    else None
  }

  /** A list whose elements are all strings loses nothing to Strings; the
      strict and the skipping reading agree on it. */
  lemma {:induction false} StringsOfAllStrings(elements: seq<Attr>)
    requires AllStrings(elements).Some?
    ensures Strings(elements) == AllStrings(elements).value
  {
    if elements != [] {
      var init := elements[..|elements| - 1];
      assert forall i | 0 <= i < |init| :: init[i] == elements[i];
      StringsOfAllStrings(init);
    }
  }
}
