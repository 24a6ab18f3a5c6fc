/** The top-level statements of src/index.ts and its class `TClass`: the
    fruit counts of src/examples/01.ts are summed, and that sum is added to
    `num` once per iteration of a 100-step counted loop. */
module Index {

  /** The object `fruitCounts`. */
  datatype FruitCounts = FruitCounts(apple: int, pear: int, banana: int)

  const fruitCounts: FruitCounts := FruitCounts(1, 4, 26)

  const Iterations: nat := 100

  /** `for (let i = 0; i < 100; i++) num += count`, starting from `num = 0`.
      `trace[i]` is the value of `num` after the body has run for `i`. */
  method Accumulate(count: int) returns (num: int, ghost trace: seq<int>)
    ensures |trace| == Iterations
    ensures forall i :: 0 <= i < |trace| ==> trace[i] == (i + 1) * count
    ensures num == Iterations * count
    ensures count >= 0 ==> 0 <= trace[0] && forall i :: 0 < i < |trace| ==> trace[i - 1] <= trace[i]
  {
    num := 0;
    trace := [];
    for i := 0 to Iterations
      invariant |trace| == i
      invariant num == i * count
      invariant forall j :: 0 <= j < i ==> trace[j] == (j + 1) * count
      invariant forall j :: 0 < j < i ==> trace[j] == trace[j - 1] + count
    {
      num := num + count;
      trace := trace + [num];
    }
  }

  /** src/index.ts:3-8 without the `console.log`. */
  method Run() returns (count: int, num: int)
    ensures count == 31
    ensures num == 3100
  {
    count := fruitCounts.apple + fruitCounts.banana + fruitCounts.pear;
    ghost var trace;
    num, trace := Accumulate(count);
  }

  class TClass {
    var name: string
    var score: int

    constructor (name: string, score: int)
      ensures this.name == name && this.score == score
    {
      this.name := name;
      this.score := score;
    }
  }
}
