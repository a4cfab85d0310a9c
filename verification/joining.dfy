/**
 Python's `sep.join(parts)` for a one-character separator, and the total
 length of a list of strings. `Offset` gives where each part starts inside
 the joined string, so the result can be described part by part.
 */
module Joining {

  /** Sum of the lengths of `ps`. */
  function SumLengths(ps: seq<string>): nat
  {
    if |ps| == 0 then 0
    else SumLengths(ps[..|ps| - 1]) + |ps[|ps| - 1]|
  }

  /** Appending one string adds its length to the sum. */
  lemma SumLengthsAppend(ps: seq<string>, p: string)
    ensures SumLengths(ps + [p]) == SumLengths(ps) + |p|
  {
  }

  /** `sep.join(ps)`: the parts in order, with `sep` between neighbours. */
  function Join(ps: seq<string>, sep: char): (r: string)
    ensures |ps| == 0 ==> |r| == 0
    ensures |ps| >= 1 ==> |r| == SumLengths(ps) + |ps| - 1
  {
    if |ps| == 0 then ""
    else if |ps| == 1 then ps[0]
    else Join(ps[..|ps| - 1], sep) + [sep] + ps[|ps| - 1]
  }

  /** Where part `k` starts in a join of `ps`: the parts before it and one separator after each. */
  function Offset(ps: seq<string>, k: nat): nat
    requires k <= |ps|
  {
    SumLengths(ps[..k]) + k
  }

  /** Part `k` sits, unchanged, at `Offset(ps, k)` in the joined string. */
  lemma {:induction false} JoinPartAt(ps: seq<string>, sep: char, k: nat)
    requires k < |ps|
    ensures Offset(ps, k) + |ps[k]| <= |Join(ps, sep)|
    ensures Join(ps, sep)[Offset(ps, k)..Offset(ps, k) + |ps[k]|] == ps[k]
    decreases |ps|
  {
    var init := ps[..|ps| - 1];
    if |ps| == 1 {
      assert ps[..0] == [];
    } else if k == |ps| - 1 {
      assert ps[..k] == init;
    } else {
      JoinPartAt(init, sep, k);
      assert init[..k] == ps[..k];
      assert init[k] == ps[k];
    }
  }

  /** Just before every part but the first stands the separator. */
  lemma {:induction false} JoinSeparatorAt(ps: seq<string>, sep: char, k: nat)
    requires 1 <= k < |ps|
    ensures 1 <= Offset(ps, k) <= |Join(ps, sep)|
    ensures Join(ps, sep)[Offset(ps, k) - 1] == sep
    decreases |ps|
  {
    var init := ps[..|ps| - 1];
    var j := Join(init, sep);
    assert Join(ps, sep) == j + [sep] + ps[|ps| - 1];
    if k == |ps| - 1 {
      assert ps[..k] == init;
      assert Offset(ps, k) - 1 == |j|;
    } else {
      JoinSeparatorAt(init, sep, k);
      assert init[..k] == ps[..k];
      assert Offset(init, k) == Offset(ps, k);
    }
  }
}
