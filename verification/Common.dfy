/** Small helpers shared by the models of Itsi's components. */
module Common {
  type Bytes = seq<bv8>

  const NANOS := 1_000_000_000      // nanoseconds in a second

  datatype Option<+T> = None | Some(value: T)

  /** The sequence holding the value of `o`, if there is one. */
  function Opt<T>(o: Option<T>): seq<T> {
    match o
    case None => []
    case Some(v) => [v]
  }

  function Flatten<T>(ss: seq<seq<T>>): seq<T> {
    if ss == [] then [] else ss[0] + Flatten(ss[1..])
  }

  lemma {:induction false} FlattenAppend<T>(ss: seq<seq<T>>, s: seq<T>)
    ensures Flatten(ss + [s]) == Flatten(ss) + s
  {
    if ss == [] {
      assert [] + [s] == [s];
      assert [s][1..] == [];
    } else {
      FlattenAppend(ss[1..], s);
      assert (ss + [s])[1..] == ss[1..] + [s];
    }
  }

  lemma ConcatAssoc<T>(a: seq<T>, b: seq<T>, c: seq<T>)
    ensures (a + b) + c == a + (b + c)
  {
  }

  /** Two ways to cut the same sequence: what lies behind the shorter front part. */
  lemma CutBehind<T>(a: seq<T>, b: seq<T>, x: seq<T>, y: seq<T>)
    requires a + b == x + y && |x| <= |a|
    ensures a[..|x|] == x && a[|x|..] + b == y
  {
    assert a[..|x|] == (a + b)[..|x|] == (x + y)[..|x|];
    assert a[|x|..] + b == (a + b)[|x|..] == (x + y)[|x|..];
  }

  lemma CutBehindPrefix<T>(a: seq<T>, b: seq<T>, x: seq<T>, y: seq<T>)
    requires a + b <= x + y && |x| <= |a|
    ensures a[..|x|] == x && a[|x|..] + b <= y
  {
    assert a[..|x|] == (a + b)[..|x|] == (x + y)[..|x|];
    assert a[|x|..] + b == (a + b)[|x|..] <= (x + y)[|x|..] == y;
  }

  function Min(a: int, b: int): int {
    if a <= b then a else b
  }

  function Pow2(n: nat): nat {
    if n == 0 then 1 else 2 * Pow2(n - 1)
  }
}
