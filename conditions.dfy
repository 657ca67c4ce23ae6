/**
 * The condition algebra: immutable predicates over (index, item). A
 * combined node folds its children's verdicts with AND or OR, starting from
 * the operator's default value; an index node matches one position.
 */
module Conditions {
  import opened Types

  datatype BoolOp = And | Or {
    /** `getDefaultResultValue`: the accumulator's starting value. */
    function DefaultResult(): (b: bool)
      ensures b <==> this == And
    {
      this == And
    }

    /** The enum constant's name, as string concatenation renders it. */
    function Name(): string {
      match this
      case And => "AND"
      case Or => "OR"
    }

    /** One `&=` or `|=` step; both operands are always evaluated. */
    function Combine(acc: bool, verdict: bool): bool {
      match this
      case And => acc && verdict
      case Or => acc || verdict
    }
  }

  /** A condition. `Index` and `Combined` are the library's IndexCondition and
      CombinedCondition; the other leaves are the remaining factory
      conditions, whose verdicts are stated here as assumptions. */
  datatype Cond =
    | Index(indexToMatchOn: int)
    | Combined(operation: BoolOp, conditions: seq<Cond>)
    | Not(negated: Cond)
    | Even
    | Odd
    | ValueEquals(path: string, expected: Value)
    | Always

  /** The verdict of `c` on the item at `index` whose properties are `props`. */
  function Eval(c: Cond, index: int, props: Props): bool
    decreases c
  {
    match c
    case Index(n) => index == n
    case Combined(op, cs) => Fold(op, Verdicts(cs, index, props))
    case Not(d) => !Eval(d, index, props)
    case Even => index % 2 == 0
    case Odd => index % 2 != 0
    case ValueEquals(path, v) => path in props && props[path] == v
    case Always => true
  }

  /** The children's verdicts, in list order. */
  function Verdicts(cs: seq<Cond>, index: int, props: Props): (vs: seq<bool>)
    ensures |vs| == |cs|
    ensures forall j :: 0 <= j < |cs| ==> vs[j] == Eval(cs[j], index, props)
    decreases cs
  {
    seq(|cs|, j requires 0 <= j < |cs| => Eval(cs[j], index, props))
  }

  /** The accumulator after folding `vs` in order from the default value. */
  function Fold(op: BoolOp, vs: seq<bool>): bool
    decreases |vs|
  {
    if vs == [] then op.DefaultResult()
    else op.Combine(Fold(op, vs[..|vs| - 1]), vs[|vs| - 1])
  }

  lemma {:induction false} FoldAndIsAll(vs: seq<bool>)
    ensures Fold(And, vs) <==> forall j :: 0 <= j < |vs| ==> vs[j]
    decreases |vs|
  {
    if vs != [] {
      FoldAndIsAll(vs[..|vs| - 1]);
    }
  }

  lemma {:induction false} FoldOrIsAny(vs: seq<bool>)
    ensures Fold(Or, vs) <==> exists j :: 0 <= j < |vs| && vs[j]
    decreases |vs|
  {
    if vs != [] {
      var init := vs[..|vs| - 1];
      FoldOrIsAny(init);
      if exists j :: 0 <= j < |vs| && vs[j] {
        var j :| 0 <= j < |vs| && vs[j];
        if j < |vs| - 1 { assert init[j]; }
      }
    }
  }

  /** An AND node is valid iff every child is valid for the same item and
      index; with no children it is valid. */
  lemma AndValidIffAll(cs: seq<Cond>, index: int, props: Props)
    ensures Eval(Combined(And, cs), index, props) <==>
              forall j :: 0 <= j < |cs| ==> Eval(cs[j], index, props)
  {
    FoldAndIsAll(Verdicts(cs, index, props));
  }

  /** An OR node is valid iff some child is valid; with no children it is
      not. */
  lemma OrValidIffAny(cs: seq<Cond>, index: int, props: Props)
    ensures Eval(Combined(Or, cs), index, props) <==>
              exists j :: 0 <= j < |cs| && Eval(cs[j], index, props)
  {
    FoldOrIsAny(Verdicts(cs, index, props));
  }

  /** A two-child node is the operator applied to its children. */
  lemma {:induction false} EvalPair(op: BoolOp, a: Cond, b: Cond, index: int, props: Props)
    ensures Eval(Combined(op, [a, b]), index, props) ==
              op.Combine(Eval(a, index, props), Eval(b, index, props))
  {
    var vs := Verdicts([a, b], index, props);
    assert vs[..1][..0] == [];
    assert Fold(op, vs[..1]) == op.Combine(op.DefaultResult(), vs[0]) == vs[0];
  }

  /** An index node matches exactly its own index, whatever the item. */
  lemma IndexValidIff(n: int, index: int, props: Props, other: Props)
    ensures Eval(Index(n), index, props) <==> index == n
    ensures Eval(Index(n), index, props) == Eval(Index(n), index, other)
  {
  }

  /** `isValid`, dispatching on the kind of condition. A combined node runs
      the accumulator loop over every child, in order, without stopping
      early. */
  method IsValid(c: Cond, index: int, props: Props) returns (result: bool)
    ensures result == Eval(c, index, props)
    decreases c
  {
    match c {
      case Index(n) =>
        result := index == n;
      case Combined(op, cs) =>
        result := op.DefaultResult();
        for k := 0 to |cs|
          invariant result == Fold(op, Verdicts(cs, index, props)[..k])
        {
          var verdict := IsValid(cs[k], index, props);
          match op {
            case And => result := result && verdict;
            case Or => result := result || verdict;
          }
          assert Verdicts(cs, index, props)[..k + 1][..k] == Verdicts(cs, index, props)[..k];
        }
        assert Verdicts(cs, index, props)[..|cs|] == Verdicts(cs, index, props);
      case Not(d) =>
        var inner := IsValid(d, index, props);
        result := !inner;
      case _ =>
        result := Eval(c, index, props);
    }
  }

  // ---------------------------------------------------------------------
  // Rendering

  /** True of a condition holding a combined node without children. */
  predicate HasEmptyNode(c: Cond)
    decreases c
  {
    match c
    case Combined(_, cs) => cs == [] || exists j :: 0 <= j < |cs| && HasEmptyNode(cs[j])
    case Not(d) => HasEmptyNode(d)
    case _ => false
  }

  /** How the conditions whose classes are not part of this model render:
      `leaf` gives the text of a leaf, `negation` wraps the text of the
      negated child. */
  datatype Texts = Texts(leaf: Cond -> string, negation: string -> string)

  /** `toString`. An index node renders as `INDEX [n]`; a combined node as
      `(c1) ` followed by `OP (ci) ` for every further child, and fails with
      NoSuchElement when it has no children, or when a child fails. A
      negation renders its child and fails when the child does. The
      renderings of the other leaves, and the wrapping a negation puts
      around its child, are supplied by `texts`. */
  function Render(c: Cond, texts: Texts): Result<string>
    decreases c, 1
  {
    match c
    case Index(n) => Success("INDEX [" + IntToString(n) + "]")
    case Combined(_, cs) =>
      if cs == [] then Failure(NoSuchElement) else RenderPrefix(c, |cs|, texts)
    case Not(d) =>
      var inner := Render(d, texts);
      if inner.Failure? then inner else Success(texts.negation(inner.value))
    case _ => Success(texts.leaf(c))
  }

  /** The builder's content after the first `n` children of a combined node:
      `(t1) OP (t2) ... OP (tn) `, or the failure of the first child whose
      rendering fails. */
  function RenderPrefix(c: Cond, n: nat, texts: Texts): Result<string>
    requires c.Combined? && 1 <= n <= |c.conditions|
    decreases c, 0, n
  {
    var child := Render(c.conditions[n - 1], texts);
    if n == 1 then
      if child.Failure? then child else Success(FirstPiece(child.value))
    else
      var prefix := RenderPrefix(c, n - 1, texts);
      if prefix.Failure? then prefix
      else if child.Failure? then child
      else Success(prefix.value + NextPiece(c.operation, child.value))
  }

  /** What the builder starts with: the first child's text in parentheses. */
  function FirstPiece(text: string): string {
    "(" + text + ") "
  }

  /** What each further child appends: the operator, then its text in
      parentheses. */
  function NextPiece(op: BoolOp, text: string): string {
    op.Name() + " (" + text + ") "
  }

  /** A prefix fails exactly when one of its children fails to render. */
  lemma {:induction false} RenderPrefixFails(c: Cond, n: nat, texts: Texts)
    requires c.Combined? && 1 <= n <= |c.conditions|
    ensures RenderPrefix(c, n, texts).Failure? <==>
              exists j :: 0 <= j < n && Render(c.conditions[j], texts).Failure?
    decreases n
  {
    var cs := c.conditions;
    var child := Render(cs[n - 1], texts);
    if n > 1 {
      RenderPrefixFails(c, n - 1, texts);
      if !child.Failure? {
        assert forall j :: 0 <= j < n && Render(cs[j], texts).Failure? ==> j < n - 1;
      }
    }
  }

  /** Once a prefix has failed, every longer prefix fails with the same
      error: the loop stops at the first child that fails. */
  lemma {:induction false} RenderPrefixSticks(c: Cond, k: nat, n: nat, texts: Texts)
    requires c.Combined? && 1 <= k <= n <= |c.conditions|
    requires RenderPrefix(c, k, texts).Failure?
    ensures RenderPrefix(c, n, texts) == RenderPrefix(c, k, texts)
    decreases n
  {
    if n > k {
      RenderPrefixSticks(c, k, n - 1, texts);
    }
  }

  /** One turn of the loop: the next child either fails the rendering or
      appends its piece. */
  lemma RenderPrefixNext(c: Cond, n: nat, texts: Texts)
    requires c.Combined? && 1 <= n < |c.conditions|
    requires RenderPrefix(c, n, texts).Success?
    ensures var child := Render(c.conditions[n], texts);
            RenderPrefix(c, n + 1, texts) ==
            if child.Failure? then child
            else Success(RenderPrefix(c, n, texts).value + NextPiece(c.operation, child.value))
  {
  }

  /** Rendering fails exactly when some combined node of the tree has no
      children. */
  lemma {:induction false} RenderFailsIffEmptyNode(c: Cond, texts: Texts)
    ensures Render(c, texts).Failure? <==> HasEmptyNode(c)
    decreases c
  {
    match c
    case Combined(op, cs) =>
      forall j | 0 <= j < |cs|
        ensures Render(cs[j], texts).Failure? <==> HasEmptyNode(cs[j])
      {
        RenderFailsIffEmptyNode(cs[j], texts);
      }
      if cs != [] {
        RenderPrefixFails(c, |cs|, texts);
      }
    case Not(d) =>
      RenderFailsIffEmptyNode(d, texts);
    case _ =>
  }

  /** `toString` with its StringBuilder loop. */
  method ToString(c: Cond, texts: Texts) returns (r: Result<string>)
    ensures r == Render(c, texts)
    decreases c, 1
  {
    match c {
      case Combined(op, cs) =>
        r := ToStringCombined(c, texts);
      case Not(d) =>
        var inner := ToString(d, texts);
        r := if inner.Failure? then inner else Success(texts.negation(inner.value));
      case _ =>
        r := Render(c, texts);
    }
  }

  method ToStringCombined(c: Cond, texts: Texts) returns (r: Result<string>)
    requires c.Combined?
    ensures r == Render(c, texts)
    decreases c, 0
  {
    var op, cs := c.operation, c.conditions;
    if cs == [] {
      return Failure(NoSuchElement);
    }
    var first := ToString(cs[0], texts);
    if first.Failure? {
      assert RenderPrefix(c, 1, texts) == first;
      RenderPrefixSticks(c, 1, |cs|, texts);
      return first;
    }
    var builder := FirstPiece(first.value);
    for k := 1 to |cs|
      invariant RenderPrefix(c, k, texts) == Success(builder)
    {
      var next := ToString(cs[k], texts);
      RenderPrefixNext(c, k, texts);
      if next.Failure? {
        RenderPrefixSticks(c, k + 1, |cs|, texts);
        return next;
      }
      builder := builder + NextPiece(op, next.value);
    }
    r := Success(builder);
  }

  lemma IndexTexts(texts: Texts)
    ensures Render(Index(1), texts) == Success("INDEX [1]")
    ensures Render(Index(22), texts) == Success("INDEX [22]")
  {
    assert IntToString(1) == "1";
    assert NatToString(22) == NatToString(2) + [DigitChar(2)];
    assert IntToString(22) == "22";
    assert "INDEX [" + "1" + "]" == "INDEX [1]";
    assert "INDEX [" + "22" + "]" == "INDEX [22]";
  }

  lemma ExamplePieces()
    ensures FirstPiece("INDEX [1]") == "(INDEX [1]) "
    ensures "(INDEX [1]) " + NextPiece(And, "INDEX [22]") == "(INDEX [1]) AND (INDEX [22]) "
  {
    assert NextPiece(And, "INDEX [22]") == "AND (INDEX [22]) ";
  }

  /** Two index conditions under AND render as `(INDEX [1]) AND (INDEX [22]) `. */
  lemma RenderExample(texts: Texts)
    ensures Render(Combined(And, [Index(1), Index(22)]), texts)
            == Success("(INDEX [1]) AND (INDEX [22]) ")
  {
    IndexTexts(texts);
    ExamplePieces();
    var c := Combined(And, [Index(1), Index(22)]);
    assert c.conditions[0] == Index(1) && c.conditions[1] == Index(22);
    assert RenderPrefix(c, 1, texts) == Success("(INDEX [1]) ");
  }
}
