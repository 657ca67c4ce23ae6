/**
 * An explicit type-hierarchy table standing in for the reflective
 * `getSuperclass()` / `getInterfaces()` calls the generator cache makes.
 * A type absent from `superclass` has no superclass (`getSuperclass()`
 * returns null: the root class, an interface, a primitive); a type absent
 * from `interfaces` implements no interface directly.
 */
module TypeHierarchy {
  import opened Types

  datatype Hierarchy = Hierarchy(
    superclass: map<TypeRef, TypeRef>,
    interfaces: map<TypeRef, seq<TypeRef>>,
    depth: map<TypeRef, nat>)
  {
    /** The rank of a type: its distance from the root, as recorded. */
    function Depth(t: TypeRef): nat {
      if t in depth then depth[t] else 0
    }

    /** The JVM's class graph is acyclic: every superclass sits strictly
        closer to the root than its subclass. */
    ghost predicate Valid() {
      forall t :: t in superclass ==> Depth(superclass[t]) < Depth(t)
    }

    /** `getInterfaces()`: the interfaces a type declares directly. */
    function Interfaces(t: TypeRef): seq<TypeRef> {
      if t in interfaces then interfaces[t] else []
    }
  }

  /** The superclass chain of `t`, nearest first, up to and including the
      class that has no superclass. `t` itself is not part of it. */
  function ParentChain(h: Hierarchy, t: TypeRef): (chain: seq<TypeRef>)
    requires h.Valid()
    ensures chain == [] <==> t !in h.superclass
    ensures chain != [] ==> chain[0] == h.superclass[t]
    ensures chain != [] ==> chain[|chain| - 1] !in h.superclass
    ensures forall k :: 0 <= k < |chain| - 1 ==>
              chain[k] in h.superclass && h.superclass[chain[k]] == chain[k + 1]
    decreases h.Depth(t)
  {
    if t in h.superclass then [h.superclass[t]] + ParentChain(h, h.superclass[t]) else []
  }

  /** The types reached from a list of directly implemented interfaces:
      each interface followed by its own superclass chain, in list order.
      Super-interfaces are not followed. */
  function InterfaceWalk(h: Hierarchy, ifaces: seq<TypeRef>): (walk: seq<TypeRef>)
    requires h.Valid()
    ensures forall i :: i in ifaces ==> i in walk
    ensures forall i, x :: i in ifaces && x in ParentChain(h, i) ==> x in walk
    ensures forall x :: x in walk ==>
              x in ifaces || exists i :: i in ifaces && x in ParentChain(h, i)
    decreases |ifaces|
  {
    if ifaces == [] then []
    else
      var init, last := ifaces[..|ifaces| - 1], ifaces[|ifaces| - 1];
      assert ifaces == init + [last];
      assert forall i :: i in init ==> i in ifaces;
      assert forall x :: x in ParentChain(h, last) ==>
               exists i :: i in ifaces && x in ParentChain(h, i);
      var walk := InterfaceWalk(h, init) + [last] + ParentChain(h, last);
      assert forall i, x :: i in ifaces && x in ParentChain(h, i) ==> x in walk by {
        forall i, x | i in ifaces && x in ParentChain(h, i)
          ensures x in walk
        {
          if i != last {
            assert i in init;
          }
        }
      }
      walk
  }
}
