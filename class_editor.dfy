/**
 * A data editor for several kinds of data-transfer object at once: rules
 * (an applicability condition plus an editor) are kept in lists keyed by the
 * exact runtime class they apply to, and an item is edited by the rules of
 * its own class, in registration order.
 */
module ClassKeyedEditor {
  import opened Types
  import opened Conditions
  import opened Editors

  /** A rule (an `Edit`): the editor runs on an item only when the condition
      holds for it. */
  datatype Rule = Rule(condition: Cond, editor: Editor)

  /** The properties after `rules` have been offered, in order, to the item
      at `index`. Each condition is evaluated on the properties as the
      earlier rules left them. */
  function ApplyRules(rules: seq<Rule>, index: int, props: Props, effect: Effect): Props
    decreases |rules|
  {
    if rules == [] then props
    else
      var before := ApplyRules(rules[..|rules| - 1], index, props, effect);
      var r := rules[|rules| - 1];
      if Eval(r.condition, index, before) then Apply(r.editor, index, before, effect) else before
  }

  lemma {:induction false} ApplyRulesAppend(a: seq<Rule>, b: seq<Rule>, index: int, props: Props, effect: Effect)
    ensures ApplyRules(a + b, index, props, effect) ==
            ApplyRules(b, index, ApplyRules(a, index, props, effect), effect)
    decreases |b|
  {
    if b == [] {
      assert a + b == a;
    } else {
      var init := b[..|b| - 1];
      assert (a + b)[..|a + b| - 1] == a + init;
      ApplyRulesAppend(a, init, index, props, effect);
    }
  }

  /** A rule whose condition fails leaves the item as it was; one whose
      condition holds runs its editor. */
  lemma ApplyOneRule(r: Rule, index: int, props: Props, effect: Effect)
    ensures !Eval(r.condition, index, props) ==> ApplyRules([r], index, props, effect) == props
    ensures Eval(r.condition, index, props) ==>
              ApplyRules([r], index, props, effect) == Apply(r.editor, index, props, effect)
  {
    assert [r][..0] == [];
  }

  /** True of conditions that never look at the item's properties. */
  predicate IgnoresItem(c: Cond)
    decreases c
  {
    match c
    case Combined(_, cs) => forall j :: 0 <= j < |cs| ==> IgnoresItem(cs[j])
    case Not(d) => IgnoresItem(d)
    case ValueEquals(_, _) => false
    case _ => true
  }

  lemma {:induction false} IgnoresItemEval(c: Cond, index: int, p: Props, q: Props)
    requires IgnoresItem(c)
    ensures Eval(c, index, p) == Eval(c, index, q)
    decreases c
  {
    match c
    case Combined(op, cs) =>
      forall j | 0 <= j < |cs|
        ensures Eval(cs[j], index, p) == Eval(cs[j], index, q)
      {
        IgnoresItemEval(cs[j], index, p, q);
      }
      assert Verdicts(cs, index, p) == Verdicts(cs, index, q);
    case Not(d) =>
      IgnoresItemEval(d, index, p, q);
    case _ =>
  }

  /** The editors of the rules whose condition holds at `index`. */
  function Selected(rules: seq<Rule>, index: int): seq<Editor>
    requires forall j :: 0 <= j < |rules| ==> IgnoresItem(rules[j].condition)
    decreases |rules|
  {
    if rules == [] then []
    else
      var init, r := rules[..|rules| - 1], rules[|rules| - 1];
      var chosen := Selected(init, index);
      if Eval(r.condition, index, map[]) then chosen + [r.editor] else chosen
  }

  /** When no condition reads the item, the rule loop is "select the rules
      that hold, then run their editors in order": a rule is applied exactly
      when its condition holds. */
  lemma {:induction false} FilterThenRun(rules: seq<Rule>, index: int, props: Props, effect: Effect)
    requires forall j :: 0 <= j < |rules| ==> IgnoresItem(rules[j].condition)
    ensures ApplyRules(rules, index, props, effect) ==
            Apply(Composite(Selected(rules, index)), index, props, effect)
    decreases |rules|
  {
    if rules == [] {
    } else {
      var init, r := rules[..|rules| - 1], rules[|rules| - 1];
      FilterThenRun(init, index, props, effect);
      var before := ApplyRules(init, index, props, effect);
      IgnoresItemEval(r.condition, index, before, map[]);
      if Eval(r.condition, index, map[]) {
        ApplyAppendPart(Selected(init, index), r.editor, index, props, effect);
      }
    }
  }

  /** A later rule's condition sees what an earlier rule did: with the rules
      "set name to sample-3" and then "when name is sample-3, set it to
      CHANGED", the second one fires. */
  lemma LaterRuleSeesEarlierEdit(index: int)
    ensures ApplyRules(
              [Rule(Always, Primitive(0)), Rule(ValueEquals("name", Text("sample-3")), Primitive(1))],
              index, map[], SetName)["name"] == Text("CHANGED")
  {
    var rules := [Rule(Always, Primitive(0)), Rule(ValueEquals("name", Text("sample-3")), Primitive(1))];
    assert rules[..1] == [rules[0]];
    ApplyOneRule(rules[0], index, map[], SetName);
    var mid := ApplyRules(rules[..1], index, map[], SetName);
    assert mid == SetName(0, index, map[]);
    assert mid["name"] == Text("sample-3");
  }

  /** Example effect: editor 0 sets `name` to "sample-3", every other editor
      sets it to "CHANGED". */
  function SetName(id: nat, index: int, props: Props): Props {
    props["name" := Text(if id == 0 then "sample-3" else "CHANGED")]
  }

  /** The rules a table holds for exactly `clazz`; none when the class has
      no entry. */
  function RulesOf(table: map<TypeRef, seq<Rule>>, clazz: TypeRef): seq<Rule> {
    if clazz in table then table[clazz] else []
  }

  /** The properties object `x` has once the first `n` positions of
      `items` have been edited with the rules of `table`, when it started
      with `init`: every position holding `x` runs the rules of x's class,
      at that position's index, on what the earlier positions left. */
  function History(table: map<TypeRef, seq<Rule>>, items: seq<Dto?>, n: nat, x: Dto, init: Props, effect: Effect): Props
    requires n <= |items|
    decreases n
  {
    if n == 0 then init
    else
      var before := History(table, items, n - 1, x, init, effect);
      if items[n - 1] == x then ApplyRules(RulesOf(table, x.clazz), n - 1, before, effect) else before
  }

  class MappedClassDataEditor {
    /** The rule lists, by exact runtime class. */
    var rules: map<TypeRef, seq<Rule>>

    constructor()
      ensures rules == map[]
    {
      rules := map[];
    }

    /** `getEdits`: the rules registered for exactly this class; a class with
        none registered has the empty list. */
    function GetEdits(clazz: TypeRef): (rs: seq<Rule>)
      reads this
      ensures clazz !in rules ==> rs == []
      ensures clazz in rules ==> rs == rules[clazz]
    {
      RulesOf(rules, clazz)
    }

    /** `addEditForClass`: appends to the class's own list; the lists of all
        other classes are unchanged. */
    method AddEditForClass(clazz: TypeRef, rule: Rule)
      modifies this
      ensures rules == old(rules)[clazz := old(GetEdits(clazz)) + [rule]]
      ensures GetEdits(clazz) == old(GetEdits(clazz)) + [rule]
      ensures forall other :: other != clazz ==> GetEdits(other) == old(GetEdits(other))
    {
      rules := rules[clazz := GetEdits(clazz) + [rule]];
    }

    /** `edit(index, dataItem)`: a missing item fails (its class cannot be
        asked for). Otherwise every rule of the item's exact class is offered
        the item in turn, and the item itself is returned. */
    method Edit(index: int, item: Dto?, effect: Effect) returns (r: Result<Dto>)
      modifies item
      ensures item == null ==> r == Failure(NullPointer)
      ensures item != null ==> r == Success(item)
      ensures item != null ==>
                item.props == ApplyRules(GetEdits(item.clazz), index, old(item.props), effect)
    {
      if item == null {
        return Failure(NullPointer);
      }
      var list := GetEdits(item.clazz);
      for k := 0 to |list|
        invariant item.props == ApplyRules(list[..k], index, old(item.props), effect)
      {
        assert list[..k + 1][..k] == list[..k];
        var valid := IsValid(list[k].condition, index, item.props);
        if valid {
          Editors.Edit(list[k].editor, index, item, effect);
        }
      }
      assert list[..|list|] == list;
      r := Success(item);
    }

    /** The position of the first missing item, or the length when there is
        none. */
    static function FirstNull(items: seq<Dto?>): (k: nat)
      ensures k <= |items|
      ensures forall j :: 0 <= j < k ==> items[j] != null
      ensures k < |items| ==> items[k] == null
      decreases |items|
    {
      if items == [] || items[0] == null then 0 else 1 + FirstNull(items[1..])
    }

    /** `edit(list)`: `edit(k, list[k])` for each position `k` in order. A
        missing item stops the walk with a failure; the items before it have
        been edited, the ones after it have not. */
    method EditAll(items: seq<Dto?>, effect: Effect) returns (o: Outcome)
      modifies items
      ensures o == (if FirstNull(items) < |items| then Fail(NullPointer) else Pass)
      ensures forall j :: 0 <= j < |items| && items[j] != null ==>
                items[j].props == History(rules, items, FirstNull(items), items[j], old(items[j].props), effect)
    {
      for k := 0 to |items|
        invariant forall j :: 0 <= j < k ==> items[j] != null
        invariant forall j :: 0 <= j < |items| && items[j] != null ==>
                    items[j].props == History(rules, items, k, items[j], old(items[j].props), effect)
      {
        var r := Edit(k, items[k], effect);
        if r.Failure? {
          return Fail(NullPointer);
        }
      }
      o := Pass;
    }
  }

  /** With no item repeated, editing the list edits each item exactly once,
      by the rules of its class, at its own position. */
  lemma {:induction false} HistoryDistinct(table: map<TypeRef, seq<Rule>>, items: seq<Dto?>, n: nat, j: nat, init: Props, effect: Effect)
    requires n <= |items| && j < n
    requires forall i, k :: 0 <= i < k < |items| && items[i] != null ==> items[i] != items[k]
    requires items[j] != null
    ensures History(table, items, n, items[j], init, effect) ==
            ApplyRules(RulesOf(table, items[j].clazz), j, init, effect)
    decreases n
  {
    if j < n - 1 {
      HistoryDistinct(table, items, n - 1, j, init, effect);
    } else {
      HistoryUntouched(table, items, n - 1, items[j], init, effect);
    }
  }

  /** An item that does not occur among the first `n` positions still has
      its starting properties. */
  lemma {:induction false} HistoryUntouched(table: map<TypeRef, seq<Rule>>, items: seq<Dto?>, n: nat, x: Dto, init: Props, effect: Effect)
    requires n <= |items|
    requires forall i :: 0 <= i < n ==> items[i] != x
    ensures History(table, items, n, x, init, effect) == init
    decreases n
  {
    if n > 0 {
      HistoryUntouched(table, items, n - 1, x, init, effect);
    }
  }

  /** The same item listed twice is edited twice: once at each of its
      positions, the second time on what the first left. */
  lemma RepeatedItemEditedTwice(table: map<TypeRef, seq<Rule>>, x: Dto, init: Props, effect: Effect)
    ensures var rs := RulesOf(table, x.clazz);
            History(table, [x, x], 2, x, init, effect) ==
            ApplyRules(rs, 1, ApplyRules(rs, 0, init, effect), effect)
  {
  }

  const Dto1Class: TypeRef := TypeRef(1, "TestDto1")
  const Dto2Class: TypeRef := TypeRef(2, "TestDto2")

  /** Example effect: editor 1 sets `name` to "DTO1", every other editor
      sets it to "DTO2". */
  function SetChange(id: nat, index: int, props: Props): Props {
    props["name" := Text(if id == 1 then "DTO1" else "DTO2")]
  }

  /** The rule table of the two-class example. */
  function TwoClassTable(): map<TypeRef, seq<Rule>> {
    map[Dto1Class := [Rule(Always, Primitive(1))], Dto2Class := [Rule(Always, Primitive(2))]]
  }

  lemma TwoClassesReplay(d1: Dto, d2: Dto, p1: Props, p2: Props)
    requires d1 != d2
    requires d1.clazz == Dto1Class && d2.clazz == Dto2Class
    ensures History(TwoClassTable(), [d1, d2], 2, d1, p1, SetChange) == SetChange(1, 0, p1)
    ensures History(TwoClassTable(), [d1, d2], 2, d2, p2, SetChange) == SetChange(2, 1, p2)
  {
    var items: seq<Dto?> := [d1, d2];
    HistoryDistinct(TwoClassTable(), items, 2, 0, p1, SetChange);
    HistoryDistinct(TwoClassTable(), items, 2, 1, p2, SetChange);
    ApplyOneRule(Rule(Always, Primitive(1)), 0, p1, SetChange);
    ApplyOneRule(Rule(Always, Primitive(2)), 1, p2, SetChange);
  }

  /** The editor of the two-class example: one always-true rule for each
      class, registered one class at a time. */
  method TwoClassEditor() returns (editor: MappedClassDataEditor)
    ensures fresh(editor)
    ensures editor.rules == TwoClassTable()
  {
    editor := new MappedClassDataEditor();
    assert editor.GetEdits(Dto1Class) == [];
    assert [] + [Rule(Always, Primitive(1))] == [Rule(Always, Primitive(1))];
    editor.AddEditForClass(Dto1Class, Rule(Always, Primitive(1)));
    assert editor.rules == map[Dto1Class := [Rule(Always, Primitive(1))]];
    editor.AddEditForClass(Dto2Class, Rule(Always, Primitive(2)));
    assert editor.GetEdits(Dto2Class) == [Rule(Always, Primitive(2))];
  }

  /** Editing `[dto1, dto2]` with that editor gives each item its own
      class's value only. */
  method TwoClassesScenario() returns (dto1: Dto, dto2: Dto)
    ensures "name" in dto1.props && dto1.props["name"] == Text("DTO1")
    ensures "name" in dto2.props && dto2.props["name"] == Text("DTO2")
  {
    var editor := TwoClassEditor();
    dto1 := new Dto(Dto1Class, map["name" := Text("name")]);
    dto2 := new Dto(Dto2Class, map["name" := Text("name"), "description" := Text("description")]);
    ghost var p1, p2 := dto1.props, dto2.props;
    var items: seq<Dto?> := [dto1, dto2];
    assert MappedClassDataEditor.FirstNull(items) == 2;
    var outcome := editor.EditAll(items, SetChange);
    TwoClassesReplay(dto1, dto2, p1, p2);
    assert dto1.props == SetChange(1, 0, p1);
    assert dto2.props == SetChange(2, 1, p2);
  }
}
