/**
 * A visitor of the generation engine that collects every item it is shown,
 * in the order it is shown them.
 */
module Visitors {
  import opened Types

  class ListVisitor<D> {
    var dtos: seq<D>
    const clazz: TypeRef

    /** Starts with nothing collected, for items of type `clazz`. */
    constructor(clazz: TypeRef)
      ensures dtos == []
      ensures this.clazz == clazz
    {
      this.clazz := clazz;
      dtos := [];
    }

    /** `visit`: appends the item; its index plays no part. */
    method Visit(index: int, dto: D)
      modifies this
      ensures dtos == old(dtos) + [dto]
    {
      dtos := dtos + [dto];
    }

    /** `getDtos`: the items collected so far, in visit order. */
    function GetDtos(): (r: seq<D>)
      reads this
      ensures r == dtos
    {
      dtos
    }

    /** `getClazz`: the type fixed at construction. */
    function GetClazz(): (k: TypeRef)
      ensures k == clazz
    {
      clazz
    }
  }

  /** Showing a fresh visitor `items` one by one, at any indices, leaves it
      holding exactly `items`, in order, and its type unchanged. */
  method CollectAll<D>(clazz: TypeRef, items: seq<D>, indices: seq<int>) returns (collected: seq<D>, kind: TypeRef)
    requires |indices| == |items|
    ensures collected == items
    ensures kind == clazz
  {
    var visitor := new ListVisitor<D>(clazz);
    for k := 0 to |items|
      invariant visitor.dtos == items[..k]
      invariant visitor.clazz == clazz
    {
      assert items[..k + 1] == items[..k] + [items[k]];
      visitor.Visit(indices[k], items[k]);
    }
    assert items[..|items|] == items;
    collected := visitor.GetDtos();
    kind := visitor.GetClazz();
  }

  /** Each visit grows the collection by one and keeps what was there. */
  method VisitTwice<D>(clazz: TypeRef, a: D, b: D) returns (afterOne: seq<D>, afterTwo: seq<D>)
    ensures |afterOne| == 1 && afterOne[0] == a
    ensures |afterTwo| == |afterOne| + 1
    ensures afterTwo[..|afterOne|] == afterOne && afterTwo[|afterOne|] == b
  {
    var visitor := new ListVisitor<D>(clazz);
    visitor.Visit(7, a);
    afterOne := visitor.GetDtos();
    visitor.Visit(7, b);
    afterTwo := visitor.GetDtos();
  }
}
