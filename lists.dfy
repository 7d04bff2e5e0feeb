/**
 * List operations the client writes with `Array.prototype.filter` and `concat` over the
 * position of an element.
 */
module Lists {

  /**
   * `xs.filter((_, i) => i !== index)`: drop the element at `index`; an index outside the
   * list drops nothing.
   */
  function WithoutIndex<T>(xs: seq<T>, index: int): (r: seq<T>)
    ensures 0 <= index < |xs| ==> r == xs[..index] + xs[index + 1..]
    ensures !(0 <= index < |xs|) ==> r == xs
  {
    if xs == [] then []
    else
      var rest := WithoutIndex(xs[1..], index - 1);
      assert index > 0 && index < |xs| ==> [xs[0]] + xs[1..][..index - 1] == xs[..index];
      if index == 0 then rest else [xs[0]] + rest
  }

  /** Dropping the element just appended gives back the list it was appended to. */
  lemma RemoveUndoesAppend<T>(xs: seq<T>, x: T)
    ensures WithoutIndex(xs + [x], |xs|) == xs
  {
    assert (xs + [x])[..|xs|] == xs;
  }

  /** Only the element at `index` goes; the others keep their order. */
  lemma WithoutIndexKeepsOthers<T>(xs: seq<T>, index: nat)
    requires index < |xs|
    ensures |WithoutIndex(xs, index)| == |xs| - 1
    ensures forall i :: 0 <= i < index ==> WithoutIndex(xs, index)[i] == xs[i]
    ensures forall i :: index <= i < |xs| - 1 ==> WithoutIndex(xs, index)[i] == xs[i + 1]
  {
  }
}
