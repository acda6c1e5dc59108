/**
 * The JSON-shaped values the handler reads back from its state object, and
 * the order-sensitive list comparison `isArrayEqual`.
 */
module JsValues {
  import opened Wrappers
  import opened AssocList

  datatype Value =
    | Undefined
    | Null
    | Bool(b: bool)
    | Num(n: int)
    | Str(s: string)
    | Arr(items: seq<Value>)
    | Obj(fields: Dict<Value>)

  /** JavaScript truthiness, as used by `x || {}`. */
  predicate Truthy(v: Value)
  {
    match v
    case Undefined => false
    case Null => false
    case Bool(b) => b
    case Num(n) => n != 0
    case Str(s) => s != ""
    case Arr(_) => true
    case Obj(_) => true
  }

  /**
   * `v[key]` for a key that is not an array index. An object yields its field
   * or `undefined`; a key read from any other value yields no array, which is
   * all the handler asks of it.
   */
  function Member(v: Value, key: string): Value
  {
    if v.Obj? then (match Lookup(v.fields, key) case Some(x) => x case None => Undefined)
    else Undefined
  }

  /**
   * `a === b` for values that come from different places: primitives compare
   * by value; two arrays or objects are different references.
   */
  predicate StrictEquals(a: Value, b: Value)
  {
    match (a, b)
    case (Undefined, Undefined) => true
    case (Null, Null) => true
    case (Bool(x), Bool(y)) => x == y
    case (Num(x), Num(y)) => x == y
    case (Str(x), Str(y)) => x == y
    case _ => false
  }

  /** The list of strings as an array value. */
  function StrArray(xs: seq<string>): Value
  {
    Arr(seq(|xs|, i requires 0 <= i < |xs| => Str(xs[i])))
  }

  /** The element loop of `isArrayEqual`: every index holds strictly equal elements. */
  function ElementsEqual(xs: seq<Value>, ys: seq<Value>): bool
    requires |xs| == |ys|
  {
    if xs == [] then true
    else if !StrictEquals(xs[0], ys[0]) then false
    else ElementsEqual(xs[1..], ys[1..])
  }

  /** The loop returns true exactly when no index holds elements that differ. */
  lemma {:induction false} ElementsEqualMeaning(xs: seq<Value>, ys: seq<Value>)
    requires |xs| == |ys|
    ensures ElementsEqual(xs, ys) <==> forall i :: 0 <= i < |xs| ==> StrictEquals(xs[i], ys[i])
  {
    if xs != [] {
      ElementsEqualMeaning(xs[1..], ys[1..]);
      assert forall i :: 1 <= i < |xs| ==> xs[i] == xs[1..][i - 1] && ys[i] == ys[1..][i - 1];
    }
  }

  /** `isArrayEqual(arr1, arr2)`. */
  function IsArrayEqual(arr1: Value, arr2: Value): bool
  {
    if !arr1.Arr? || !arr2.Arr? then false
    else if |arr1.items| != |arr2.items| then false
    else ElementsEqual(arr1.items, arr2.items)
  }

  /** Two arrays of the same length whose elements are pairwise strictly equal, and nothing else. */
  lemma IsArrayEqualMeaning(arr1: Value, arr2: Value)
    ensures IsArrayEqual(arr1, arr2) <==>
      (arr1.Arr? && arr2.Arr? && |arr1.items| == |arr2.items| &&
       forall i :: 0 <= i < |arr1.items| ==> StrictEquals(arr1.items[i], arr2.items[i]))
  {
    if arr1.Arr? && arr2.Arr? && |arr1.items| == |arr2.items| {
      ElementsEqualMeaning(arr1.items, arr2.items);
    }
  }

  /** On lists of strings, `isArrayEqual` is exactly equality of the lists. */
  lemma StringListsEqual(xs: seq<string>, ys: seq<string>)
    ensures IsArrayEqual(StrArray(xs), StrArray(ys)) <==> xs == ys
  {
    IsArrayEqualMeaning(StrArray(xs), StrArray(ys));
    if IsArrayEqual(StrArray(xs), StrArray(ys)) {
      assert forall i :: 0 <= i < |xs| ==> xs[i] == ys[i] by {
        forall i | 0 <= i < |xs| ensures xs[i] == ys[i] {
          assert StrictEquals(StrArray(xs).items[i], StrArray(ys).items[i]);
        }
      }
    }
  }

  /** A value that is not an array, such as a missing entry, never equals a list. */
  lemma MissingIsNeverEqual(v: Value, xs: seq<string>)
    requires !v.Arr?
    ensures !IsArrayEqual(v, StrArray(xs))
  {
  }

  /** The comparison is order-sensitive. */
  lemma OrderMatters()
    ensures !IsArrayEqual(StrArray(["A", "B"]), StrArray(["B", "A"]))
    ensures IsArrayEqual(StrArray(["A", "B"]), StrArray(["A", "B"]))
  {
    StringListsEqual(["A", "B"], ["B", "A"]);
    StringListsEqual(["A", "B"], ["A", "B"]);
  }
}
