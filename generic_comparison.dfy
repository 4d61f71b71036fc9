/**
 * The generic-comparison lesson: an array subclass carrying a runtime `id`,
 * and `concatenate`, which joins two such lists only when their ids agree.
 * Generic types are erased at runtime, so the id is the only thing compared.
 */
module GenericComparison {
  import opened Js

  /** `class IdentificatedGeneric<S> extends Array<S>`: the array's elements plus an `id`. */
  class IdentificatedGeneric<S> {
    var id: string
    var elements: seq<S>

    /** `new IdentificatedGeneric(id)`: an empty array carrying `id`. */
    constructor (id: string)
      ensures this.id == id && elements == []
    {
      this.id := id;
      elements := [];
    }

    /** The inherited `Array.prototype.push`: appends its arguments in order and returns the new length. */
    method Push(items: seq<S>) returns (newLength: nat)
      modifies this
      ensures elements == old(elements) + items
      ensures id == old(id)
      ensures newLength == |elements|
    {
      elements := elements + items;
      newLength := |elements|;
    }
  }

  const SameIdMessage := "Must be the same id"

  /**
   * `concatenate(list1, list2)`: a fresh plain array `[...list1, ...list2]` when the
   * ids are equal (it carries no id of its own), otherwise an Error is thrown.
   */
  function Concatenate<S>(list1: IdentificatedGeneric<S>, list2: IdentificatedGeneric<S>): (r: Completion<seq<S>>)
    reads list1, list2
    ensures r.Normal? <==> list1.id == list2.id
    ensures r.Normal? ==> |r.value| == |list1.elements| + |list2.elements|
    ensures r.Normal? ==> r.value[..|list1.elements|] == list1.elements
                          && r.value[|list1.elements|..] == list2.elements
    ensures r.Throw? ==> r.message == SameIdMessage
  {
    if list1.id == list2.id then Normal(list1.elements + list2.elements)
    else Throw(SameIdMessage)
  }

  /**
   * The lesson's script: l1, l2 and l4 hold strings ("l1", "l2", "l1"), are filled
   * with push, and concatenated. `concatenate(l1, l4)` succeeds; the commented-out
   * `concatenate(l1, l2)` throws.
   */
  method Sample() returns (c3: Completion<seq<string>>, c1: Completion<seq<string>>)
    ensures c3 == Normal(["1", "2", "500", "600"])
    ensures c1 == Throw("Must be the same id")
  {
    var l1 := new IdentificatedGeneric<string>("l1");
    var l2 := new IdentificatedGeneric<string>("l2");
    var l4 := new IdentificatedGeneric<string>("l1");
    var _ := l1.Push(["1", "2"]);
    var _ := l2.Push(["100", "200"]);
    var _ := l4.Push(["500", "600"]);
    assert l1.elements == ["1", "2"] && l4.elements == ["500", "600"];
    c3 := Concatenate(l1, l4);
    assert c3.value == ["1", "2"] + ["500", "600"] == ["1", "2", "500", "600"];
    c1 := Concatenate(l1, l2);
  }
}
