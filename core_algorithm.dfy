/** The helpers of src/core/utilities/algorithm.h. */
module CoreAlgorithm {

  /** The template arguments of max<lhs, rhs>() are 32-bit unsigned constants. */
  newtype uint32 = x: int | 0 <= x < 0x1_0000_0000

  /** max<lhs, rhs>(): rhs when lhs < rhs, lhs otherwise. */
  function Max(lhs: uint32, rhs: uint32): (r: uint32)
    ensures r >= lhs && r >= rhs
    ensures r == lhs || r == rhs
  {
    if lhs < rhs then rhs else lhs
  }

  /** to_str(t) hands the work to the object's own to_str(), given here as `toStrOf`. */
  function ToStr<T>(t: T, toStrOf: T -> string): (r: string)
    ensures r == toStrOf(t)
  {
    toStrOf(t)
  }

  /** An object of the containers notIn is used on: a pointer to something with a name(). */
  class Named {
    const name: string

    constructor (name: string)
      ensures this.name == name
    {
      this.name := name;
    }
  }

  /** The position std::find_if stops at when looking for an item named like `obj`, |list| if none. */
  function FindSameName(obj: Named, list: seq<Named>): (k: nat)
    ensures k <= |list|
    ensures k < |list| ==> list[k].name == obj.name
    ensures forall j :: 0 <= j < k ==> list[j].name != obj.name
  {
    if list == [] then 0
    else if obj.name == list[0].name then 0
    else 1 + FindSameName(obj, list[1..])
  }

  /** notIn(obj, list): no item of the list carries obj's name. */
  function NotIn(obj: Named, list: seq<Named>): (r: bool)
    ensures r <==> forall j :: 0 <= j < |list| ==> list[j].name != obj.name
  {
    FindSameName(obj, list) == |list|
  }

  /** Nothing is in an empty list. */
  lemma NotInEmpty(obj: Named)
    ensures NotIn(obj, [])
  {
  }

  /** Only names are compared: another object with the same name makes obj count as present. */
  lemma NotInComparesNamesOnly(obj: Named, other: Named, list: seq<Named>)
    requires other in list && other.name == obj.name
    ensures !NotIn(obj, list)
  {
  }

  /** Appending an item named differently from obj does not change the answer. */
  lemma {:induction false} NotInAppend(obj: Named, list: seq<Named>, item: Named)
    ensures NotIn(obj, list + [item]) <==> NotIn(obj, list) && item.name != obj.name
  {
    assert (list + [item])[|list|] == item;
    assert forall j :: 0 <= j < |list| ==> (list + [item])[j] == list[j];
  }
}
