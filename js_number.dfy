/**
 * The JavaScript numbers that record ids take in the storefront: integers, and
 * `-Infinity`, which is what `Math.max()` returns when given no arguments.
 * Adding one to `-Infinity` gives `-Infinity` again.
 */
module JsNumber {

  datatype Num = NegInfinity | Int(value: int)

  /** JavaScript's `<` on these numbers. */
  predicate Less(x: Num, y: Num)
  {
    match (x, y)
    case (NegInfinity, Int(_)) => true
    case (Int(a), Int(b)) => a < b
    case _ => false
  }

  /** `x + 1`. */
  function Succ(x: Num): (r: Num)
    ensures Less(x, r) <==> x.Int?
    ensures r.Int? <==> x.Int?
  {
    match x
    case NegInfinity => NegInfinity
    case Int(n) => Int(n + 1)
  }

  /** The larger of two numbers, as `Math.max(x, y)`. */
  function Max(x: Num, y: Num): (r: Num)
    ensures r == x || r == y
    ensures !Less(r, x) && !Less(r, y)
    ensures forall z :: Less(r, z) ==> Less(x, z) && Less(y, z)
  {
    if Less(x, y) then y else x
  }

  /** `Math.max(...s)`: the largest element, or `-Infinity` for no elements. */
  function MaxOf(s: seq<Num>): (r: Num)
    ensures s == [] ==> r == NegInfinity
    ensures s != [] ==> r in s
    ensures forall x :: x in s ==> !Less(r, x)
  {
    if s == [] then NegInfinity else Max(s[0], MaxOf(s[1..]))
  }

  /**
   * `Math.max(...s) + 1` is a fresh id, strictly above every element, as soon as
   * one element is an integer; with no integer among the elements it is `-Infinity`.
   */
  lemma SuccMaxIsFresh(s: seq<Num>)
    ensures (exists x :: x in s && x.Int?) <==> Succ(MaxOf(s)).Int?
    ensures Succ(MaxOf(s)).Int? ==> forall x :: x in s ==> Less(x, Succ(MaxOf(s)))
    ensures Succ(MaxOf(s)).Int? ==> Succ(MaxOf(s)) !in s
  {
    var m := MaxOf(s);
    if exists x :: x in s && x.Int? {
      var x :| x in s && x.Int?;
      assert !Less(m, x);
      assert m.Int?;
    } else if s != [] {
      assert m in s;
    }
    if m.Int? {
      forall x | x in s ensures Less(x, Succ(m)) {
        assert !Less(m, x);
      }
    }
  }
}
