/** `deepEqualCompare` (src/examples/10.ts): refuses arrays by throwing, and
    otherwise compares its arguments with `===`, which is shallow. */
module DeepEqual {
  import opened Js

  const ArrayMessage: string := "无法使用 deepEqualCompare 判断数组是否相同"

  function DeepEqualCompare(a: Value, b: Value): (r: Result<bool>)
    ensures r.Thrown? <==> IsArray(a) || IsArray(b)
    ensures r.Thrown? ==> r.error == Error(ArrayMessage)
    ensures r.Ok? && !a.IsReference() && !b.IsReference() ==> (r.value <==> a == b)
    ensures r.Ok? && a.Obj? && b.Obj? ==> (r.value <==> a.objId == b.objId)
    ensures r.Ok? && a.IsReference() != b.IsReference() ==> !r.value
  {
    StrictEqualsMeaning(a, b);
    if IsArray(a) || IsArray(b) then Thrown(Error(ArrayMessage))
    else Ok(StrictEquals(a, b))
  }

  /** An array in either position throws, whatever the other argument is. */
  lemma ArrayArgumentThrows(a: Value, b: Value)
    requires IsArray(a) || IsArray(b)
    ensures DeepEqualCompare(a, b) == Thrown(Error(ArrayMessage))
    ensures DeepEqualCompare(b, a) == Thrown(Error(ArrayMessage))
  {
  }

  /** Without arrays, the result is `a === b`, and it does not depend on the
      order of the arguments. */
  lemma NonArraysCompareStrictly(a: Value, b: Value)
    requires !IsArray(a) && !IsArray(b)
    ensures DeepEqualCompare(a, b) == Ok(StrictEquals(a, b))
    ensures DeepEqualCompare(a, b) == DeepEqualCompare(b, a)
  {
  }

  /** The comparison is shallow: two distinct objects with the same contents
      are unequal, and one object equals itself even if its observed contents differ. */
  lemma ComparisonIsShallow(i: nat, j: nat, fields: map<string, Value>, other: map<string, Value>)
    requires i != j
    ensures DeepEqualCompare(Obj(i, fields), Obj(j, fields)) == Ok(false)
    ensures DeepEqualCompare(Obj(i, fields), Obj(i, other)) == Ok(true)
  {
  }

  /** `deepEqualCompare(1, 1)` is allowed; `deepEqualCompare([], ['a'])` throws. */
  lemma SourceExamples(i: nat, j: nat)
    ensures DeepEqualCompare(Num(1), Num(1)) == Ok(true)
    ensures DeepEqualCompare(Arr(i, []), Arr(j, [Str("a")])).Thrown?
  {
  }
}
