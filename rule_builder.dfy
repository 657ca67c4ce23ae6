/**
 * The mutable accumulators behind the fluent rule builder. A condition
 * builder rewraps its running condition on every `and`/`or`, so earlier
 * results stay as they were; an edit builder owns one combined editor that
 * it grows in place, so every result it hands out is that same, live object.
 */
module RuleBuilder {
  import opened Types
  import opened Conditions
  import opened Editors

  const ConditionRequired: string := "Condition must not be null"
  const EditRequired: string := "Edit must not be null"

  class ConditionBuilder {
    var condition: Cond

    constructor(start: Cond)
      ensures condition == start
    {
      condition := start;
    }

    /** `and`: the running condition becomes an AND node over the previous
        condition and `c`. */
    method And(c: Cond)
      modifies this
      ensures condition == Combined(Conditions.And, [old(condition), c])
      ensures forall index: int, props: Props :: Eval(condition, index, props) ==
                (Eval(old(condition), index, props) && Eval(c, index, props))
    {
      condition := Combined(Conditions.And, [condition, c]);
      forall index: int, props: Props
        ensures Eval(condition, index, props) ==
                (Eval(old(condition), index, props) && Eval(c, index, props))
      {
        EvalPair(Conditions.And, old(condition), c, index, props);
      }
    }

    /** `or`: the running condition becomes an OR node over the previous
        condition and `c`. */
    method Or(c: Cond)
      modifies this
      ensures condition == Combined(Conditions.Or, [old(condition), c])
      ensures forall index: int, props: Props :: Eval(condition, index, props) ==
                (Eval(old(condition), index, props) || Eval(c, index, props))
    {
      condition := Combined(Conditions.Or, [condition, c]);
      forall index: int, props: Props
        ensures Eval(condition, index, props) ==
                (Eval(old(condition), index, props) || Eval(c, index, props))
      {
        EvalPair(Conditions.Or, old(condition), c, index, props);
      }
    }

    method Build() returns (c: Cond)
      ensures c == condition
    {
      c := condition;
    }
  }

  /** The null-checked constructor: a missing condition is refused at once. */
  method NewConditionBuilder(start: Option<Cond>) returns (r: Result<ConditionBuilder>)
    ensures start.None? ==> r == Failure(IllegalArgument(ConditionRequired))
    ensures start.Some? ==> r.Success? && fresh(r.value) && r.value.condition == start.value
  {
    if start.None? {
      return Failure(IllegalArgument(ConditionRequired));
    }
    var b := new ConditionBuilder(start.value);
    r := Success(b);
  }

  /** One fluent call after the first condition. */
  datatype Step = AndWith(c: Cond) | OrWith(c: Cond)

  /** The tree a run of `and`/`or` calls leaves behind: nested to the left,
      one node per call. */
  function Chain(start: Cond, steps: seq<Step>): Cond
    decreases |steps|
  {
    if steps == [] then start
    else
      var prev := Chain(start, steps[..|steps| - 1]);
      match steps[|steps| - 1]
      case AndWith(c) => Combined(Conditions.And, [prev, c])
      case OrWith(c) => Combined(Conditions.Or, [prev, c])
  }

  /** Reference verdict: the left fold, in call order, of `&&`/`||`. */
  function ChainVerdict(start: Cond, steps: seq<Step>, index: int, props: Props): bool
    decreases |steps|
  {
    if steps == [] then Eval(start, index, props)
    else
      var prev := ChainVerdict(start, steps[..|steps| - 1], index, props);
      match steps[|steps| - 1]
      case AndWith(c) => prev && Eval(c, index, props)
      case OrWith(c) => prev || Eval(c, index, props)
  }

  /** The built tree evaluates to the left fold of the calls. */
  lemma {:induction false} ChainIsLeftFold(start: Cond, steps: seq<Step>, index: int, props: Props)
    ensures Eval(Chain(start, steps), index, props) == ChainVerdict(start, steps, index, props)
    decreases |steps|
  {
    if steps != [] {
      var init := steps[..|steps| - 1];
      ChainIsLeftFold(start, init, index, props);
      var prev := Chain(start, init);
      match steps[|steps| - 1] {
        case AndWith(c) => EvalPair(Conditions.And, prev, c, index, props);
        case OrWith(c) => EvalPair(Conditions.Or, prev, c, index, props);
      }
    }
  }

  /** Drives a builder through a run of calls, as the fluent API does. */
  method BuildChain(start: Cond, steps: seq<Step>) returns (c: Cond)
    ensures c == Chain(start, steps)
  {
    var b := new ConditionBuilder(start);
    for k := 0 to |steps|
      invariant b.condition == Chain(start, steps[..k])
    {
      assert steps[..k + 1][..k] == steps[..k];
      match steps[k] {
        case AndWith(d) => b.And(d);
        case OrWith(d) => b.Or(d);
      }
    }
    assert steps[..|steps|] == steps;
    c := b.Build();
  }

  /** `index().is(3).or(not(index().isOdd()))` holds at positions 0, 2, 3
      and 4, and not at 1, whatever the item. */
  lemma IndexThreeOrEven(props: Props)
    ensures Eval(Chain(Index(3), [OrWith(Not(Odd))]), 0, props)
    ensures !Eval(Chain(Index(3), [OrWith(Not(Odd))]), 1, props)
    ensures Eval(Chain(Index(3), [OrWith(Not(Odd))]), 2, props)
    ensures Eval(Chain(Index(3), [OrWith(Not(Odd))]), 3, props)
    ensures Eval(Chain(Index(3), [OrWith(Not(Odd))]), 4, props)
  {
    var steps := [OrWith(Not(Odd))];
    assert steps[..0] == [];
    forall index: int
      ensures Eval(Chain(Index(3), steps), index, props) == (index == 3 || index % 2 == 0)
    {
      ChainIsLeftFold(Index(3), steps, index, props);
    }
  }

  /** A condition taken from an earlier `build` keeps its value when the
      builder goes on: the old tree is wrapped, not changed. */
  method BuildThenExtend(start: Cond, c: Cond) returns (first: Cond, second: Cond)
    ensures first == start
    ensures second == Combined(Conditions.And, [start, c])
  {
    var b := new ConditionBuilder(start);
    first := b.Build();
    b.And(c);
    second := b.Build();
  }

  class EditBuilder {
    const edit: CombinedEditor

    /** Wraps the first editor in a fresh combined editor. */
    constructor(first: Editor)
      ensures fresh(edit)
      ensures edit.parts == [first]
    {
      edit := new CombinedEditor(first);
    }

    /** `and`: adds `e` to the one combined editor this builder owns. */
    method And(e: Editor)
      modifies edit
      ensures edit.parts == old(edit.parts) + [e]
    {
      edit.AddEdit(e);
    }

    /** `build`: the builder's own combined editor, the same object on
        every call. */
    method Build() returns (r: CombinedEditor)
      ensures r == edit
    {
      r := edit;
    }
  }

  /** The null-checked constructor: a missing editor is refused at once. */
  method NewEditBuilder(first: Option<Editor>) returns (r: Result<EditBuilder>)
    ensures first.None? ==> r == Failure(IllegalArgument(EditRequired))
    ensures first.Some? ==> r.Success? && fresh(r.value) && fresh(r.value.edit) &&
                            r.value.edit.parts == [first.value]
  {
    if first.None? {
      return Failure(IllegalArgument(EditRequired));
    }
    var b := new EditBuilder(first.value);
    r := Success(b);
  }

  /** An editor taken from `build` sees the edits added afterwards, and
      then makes both changes in order. */
  method BuildThenAdd(a: Editor, b: Editor, index: int, props: Props, effect: Effect)
    returns (built: CombinedEditor, after: Props)
    ensures built.parts == [a, b]
    ensures after == Apply(b, index, Apply(a, index, props, effect), effect)
  {
    var builder := new EditBuilder(a);
    built := builder.Build();
    builder.And(b);
    ApplyAppendPart([a], b, index, props, effect);
    assert ApplyPrefix(Composite([a]), 1, index, props, effect) == Apply(a, index, props, effect);
    after := Apply(built.Current(), index, props, effect);
  }
}
