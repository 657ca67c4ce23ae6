/**
 * Editors: changes made to a data-transfer object, with no applicability
 * test of their own. A primitive editor is an in-place change whose effect
 * on the item's properties is supplied from outside (`effect`: the property
 * setters, incrementers and the like are not part of this model); a
 * composite applies its parts one after the other, in list order.
 */
module Editors {
  import opened Types

  /** A data-transfer object: its exact runtime class, fixed at creation, and
      its mutable properties. */
  class Dto {
    const clazz: TypeRef
    var props: Props

    constructor(clazz: TypeRef, props: Props)
      ensures this.clazz == clazz && this.props == props
    {
      this.clazz := clazz;
      this.props := props;
    }
  }

  /** An editor as a value: a primitive change identified by `id`, or a
      composite (a CombinedEditor) holding its parts in order. */
  datatype Editor = Primitive(id: nat) | Composite(parts: seq<Editor>)

  /** What primitive editor `id` does to the properties of the item at a
      given index. */
  type Effect = (nat, int, Props) -> Props

  /** The properties after `e` has edited the item at `index`. */
  function Apply(e: Editor, index: int, props: Props, effect: Effect): Props
    decreases e, 1
  {
    match e
    case Primitive(id) => effect(id, index, props)
    case Composite(parts) => ApplyPrefix(e, |parts|, index, props, effect)
  }

  /** The properties after the first `n` parts of a composite have run. */
  function ApplyPrefix(e: Editor, n: nat, index: int, props: Props, effect: Effect): Props
    requires e.Composite? && n <= |e.parts|
    decreases e, 0, n
  {
    if n == 0 then props
    else Apply(e.parts[n - 1], index, ApplyPrefix(e, n - 1, index, props, effect), effect)
  }

  /** The primitive changes an editor makes, in the order it makes them. */
  function Flatten(e: Editor): seq<nat>
    decreases e, 1
  {
    match e
    case Primitive(id) => [id]
    case Composite(parts) => FlattenPrefix(e, |parts|)
  }

  function FlattenPrefix(e: Editor, n: nat): seq<nat>
    requires e.Composite? && n <= |e.parts|
    decreases e, 0, n
  {
    if n == 0 then [] else FlattenPrefix(e, n - 1) + Flatten(e.parts[n - 1])
  }

  /** Reference semantics: run a list of primitive changes in order. */
  function RunAll(ids: seq<nat>, index: int, props: Props, effect: Effect): Props
    decreases |ids|
  {
    if ids == [] then props
    else effect(ids[|ids| - 1], index, RunAll(ids[..|ids| - 1], index, props, effect))
  }

  lemma {:induction false} RunAllAppend(xs: seq<nat>, ys: seq<nat>, index: int, props: Props, effect: Effect)
    ensures RunAll(xs + ys, index, props, effect) ==
            RunAll(ys, index, RunAll(xs, index, props, effect), effect)
    decreases |ys|
  {
    if ys == [] {
      assert xs + ys == xs;
    } else {
      var init := ys[..|ys| - 1];
      assert (xs + ys)[..|xs + ys| - 1] == xs + init;
      RunAllAppend(xs, init, index, props, effect);
    }
  }

  /** A composite editor is exactly the in-order run of the primitive changes
      it contains, however they are nested. */
  lemma {:induction false} ApplyIsRunAll(e: Editor, index: int, props: Props, effect: Effect)
    ensures Apply(e, index, props, effect) == RunAll(Flatten(e), index, props, effect)
    decreases e, 1
  {
    match e
    case Primitive(id) =>
      assert [id][..0] == [];
    case Composite(parts) =>
      ApplyPrefixIsRunAll(e, |parts|, index, props, effect);
  }

  lemma {:induction false} ApplyPrefixIsRunAll(e: Editor, n: nat, index: int, props: Props, effect: Effect)
    requires e.Composite? && n <= |e.parts|
    ensures ApplyPrefix(e, n, index, props, effect) == RunAll(FlattenPrefix(e, n), index, props, effect)
    decreases e, 0, n
  {
    if n > 0 {
      ApplyPrefixIsRunAll(e, n - 1, index, props, effect);
      var mid := ApplyPrefix(e, n - 1, index, props, effect);
      ApplyIsRunAll(e.parts[n - 1], index, mid, effect);
      RunAllAppend(FlattenPrefix(e, n - 1), Flatten(e.parts[n - 1]), index, props, effect);
    }
  }

  /** `Editor.and`: a new composite holding the receiver then the argument.
      Neither operand is changed; the result makes the receiver's changes
      and then the argument's. */
  function And(a: Editor, b: Editor): (r: Editor)
    ensures Flatten(r) == Flatten(a) + Flatten(b)
  {
    var r := Composite([a, b]);
    assert FlattenPrefix(r, 1) == Flatten(a);
    r
  }

  /** `a.and(b)` edits with `a` first and then with `b`. */
  lemma {:induction false} ApplyAnd(a: Editor, b: Editor, index: int, props: Props, effect: Effect)
    ensures Apply(And(a, b), index, props, effect) ==
            Apply(b, index, Apply(a, index, props, effect), effect)
  {
    var r := And(a, b);
    assert ApplyPrefix(r, 1, index, props, effect) == Apply(a, index, props, effect);
  }

  /** Chaining nests one wrapper per call: `a.and(b).and(c)` is a different
      tree from `a.and(b.and(c))`, yet both make the same changes in the
      same order. */
  lemma {:induction false} AndChain(a: Editor, b: Editor, c: Editor, index: int, props: Props, effect: Effect)
    ensures And(And(a, b), c) == Composite([Composite([a, b]), c])
    ensures And(And(a, b), c) != And(a, And(b, c))
    ensures Apply(And(And(a, b), c), index, props, effect) ==
            Apply(And(a, And(b, c)), index, props, effect)
  {
    var p := Apply(a, index, props, effect);
    ApplyAnd(And(a, b), c, index, props, effect);
    ApplyAnd(a, b, index, props, effect);
    ApplyAnd(a, And(b, c), index, props, effect);
    ApplyAnd(b, c, index, p, effect);
  }

  /** Adding a part to a composite makes the composite run that part after
      everything it did before. */
  lemma {:induction false} ApplyAppendPart(parts: seq<Editor>, e: Editor, index: int, props: Props, effect: Effect)
    ensures Apply(Composite(parts + [e]), index, props, effect) ==
            Apply(e, index, Apply(Composite(parts), index, props, effect), effect)
  {
    SamePrefix(parts, e, |parts|, index, props, effect);
  }

  lemma {:induction false} SamePrefix(parts: seq<Editor>, e: Editor, n: nat, index: int, props: Props, effect: Effect)
    requires n <= |parts|
    ensures ApplyPrefix(Composite(parts + [e]), n, index, props, effect) ==
            ApplyPrefix(Composite(parts), n, index, props, effect)
    decreases n
  {
    if n > 0 {
      SamePrefix(parts, e, n - 1, index, props, effect);
      assert (parts + [e])[n - 1] == parts[n - 1];
    }
  }

  /** `edit(index, dataItem)`: the editor changes the item in place, always;
      whether it should run is decided by its caller. */
  method Edit(e: Editor, index: int, item: Dto, effect: Effect)
    modifies item
    ensures item.props == Apply(e, index, old(item.props), effect)
  {
    item.props := Apply(e, index, item.props, effect);
  }

  /** A CombinedEditor object: an ordered list of parts that grows in place. */
  class CombinedEditor {
    var parts: seq<Editor>

    constructor(first: Editor)
      ensures parts == [first]
    {
      parts := [first];
    }

    /** `addEdit`: append a part. */
    method AddEdit(e: Editor)
      modifies this
      ensures parts == old(parts) + [e]
    {
      parts := parts + [e];
    }

    /** The editor this object currently is. */
    function Current(): Editor
      reads this
    {
      Composite(parts)
    }
  }
}
