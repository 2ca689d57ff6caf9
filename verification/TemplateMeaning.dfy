/** What the evaluator of packages/prompt/src/renderer.ts does with each kind of node, in terms of the variables. */
module TemplateMeaning {
  import opened Wrappers
  import opened Strings
  import opened TemplateParser
  import opened TemplateEval

  // ---------------------------------------------------------------------
  // Numbers as property names
  // ---------------------------------------------------------------------

  lemma {:induction false} DecimalShape(n: nat)
    ensures Decimal(n) != "" && (Decimal(n)[0] == '0' ==> n == 0) && (n == 0 ==> Decimal(n) == "0")
    ensures forall k | 0 <= k < |Decimal(n)| :: '0' <= Decimal(n)[k] <= '9'
  {
    if n >= 10 {
      DecimalShape(n / 10);
    }
  }

  lemma {:induction false} DigitsOfDecimal(n: nat)
    ensures ParseDigits(Decimal(n)) == Some(n)
  {
    var d := n % 10;
    assert Digit(d) as int - '0' as int == d;
    if n < 10 {
      assert Decimal(n)[..0] == "";
    } else {
      DigitsOfDecimal(n / 10);
      assert Decimal(n)[..|Decimal(n)| - 1] == Decimal(n / 10);
    }
  }

  lemma {:induction false} DecimalOfDigits(s: string, n: nat)
    requires s != "" && (s[0] == '0' ==> s == "0") && ParseDigits(s) == Some(n)
    ensures s == Decimal(n)
    decreases |s|
  {
    var init, d := s[..|s| - 1], s[|s| - 1] as int - '0' as int;
    var m := ParseDigits(init).value;
    assert Digit(d) == s[|s| - 1];
    assert s == init + [Digit(d)];
    if init != "" {
      DecimalOfDigits(init, m);
      if m == 0 {
        DecimalShape(0);
        assert false;
      }
      assert n / 10 == m && n % 10 == d;
    }
  }

  /** A property name is an array index exactly if it is that number in decimal, without leading zeros. */
  lemma {:induction false} IndexIff(s: string, n: nat)
    ensures ParseIndex(s) == Some(n) <==> s == Decimal(n)
  {
    DecimalShape(n);
    DigitsOfDecimal(n);
    if ParseIndex(s) == Some(n) {
      DecimalOfDigits(s, n);
    }
  }

  // ---------------------------------------------------------------------
  // Paths
  // ---------------------------------------------------------------------

  lemma {:induction false} WalkSnoc(v: Value, path: seq<string>, key: string)
    ensures Walk(v, path + [key]) == Property(Walk(v, path), key)
    decreases |path|
  {
    if path == [] {
      assert path + [key] == [key] && [key][1..] == [];
    } else {
      assert (path + [key])[1..] == path[1..] + [key];
      WalkSnoc(Property(v, path[0]), path[1..], key);
    }
  }

  /** A path begins at the variables and goes on, key by key, through objects and arrays only. */
  lemma {:induction false} PathGoesOn(path: seq<string>, key: string, variables: Variables)
    ensures ResolvePath([], variables) == Obj(variables)
    ensures var next := ResolvePath(path + [key], variables);
      match ResolvePath(path, variables)
      case Obj(fields) => next == if key in fields then fields[key] else Undefined
      case Arr(items) =>
        && (key == "length" ==> next == Num(Decimal(|items|)))
        && (forall i | 0 <= i < |items| :: key == Decimal(i) ==> next == items[i])
        && (key != "length" && (forall i | 0 <= i < |items| :: key != Decimal(i)) ==> next == Undefined)
      case Undefined => next == Undefined
      case Null => next == Undefined
      case Bool(_) => next == Undefined
      case Num(_) => next == Undefined
      case Str(_) => next == Undefined
  {
    WalkSnoc(Obj(variables), path, key);
    match ResolvePath(path, variables)
    case Arr(items) =>
      forall i: nat
        ensures ParseIndex(key) == Some(i) <==> key == Decimal(i)
      {
        IndexIff(key, i);
      }
      LengthIsNoIndex();
    case _ =>
  }

  lemma {:induction false} LengthIsNoIndex()
    ensures forall i: nat :: "length" != Decimal(i)
  {
    forall i: nat
      ensures "length" != Decimal(i)
    {
      DecimalShape(i);
    }
  }

  // ---------------------------------------------------------------------
  // Texts and truth
  // ---------------------------------------------------------------------

  /** A value as text: nothing for undefined and null, and lists joined with commas. */
  lemma {:induction false} TextOfList(a: seq<Value>, b: seq<Value>)
    requires a != [] && b != []
    ensures StringOf(Arr(a + b)) == StringOf(Arr(a)) + "," + StringOf(Arr(b))
    decreases |a|
  {
    assert (a + b)[0] == a[0];
    if |a| == 1 {
      assert (a + b)[1..] == b;
    } else {
      assert (a + b)[1..] == a[1..] + b;
      TextOfList(a[1..], b);
      var first := if Nullish(a[0]) then "" else StringOf(a[0]);
      assert first + "," + (JoinItems(a[1..]) + "," + JoinItems(b)) ==
             (first + "," + JoinItems(a[1..])) + "," + JoinItems(b);
    }
  }

  /** The text a value is shown as. */
  function Shown(v: Value): string {
    if v == Undefined || v == Null then "" else StringOf(v)
  }

  /** `String` of a value that is no list of several items. */
  lemma {:induction false} TextOfOne(v: Value, fields: map<string, Value>, s: string)
    ensures StringOf(Undefined) == "undefined" && StringOf(Null) == "null"
    ensures StringOf(Bool(true)) == "true" && StringOf(Bool(false)) == "false"
    ensures StringOf(Num(s)) == s && StringOf(Str(s)) == s && StringOf(Obj(fields)) == "[object Object]"
    ensures StringOf(Arr([])) == "" && StringOf(Arr([v])) == Shown(v)
  {
  }

  /** The values that count as false. */
  predicate Falsy(v: Value) {
    v in {Undefined, Null, Bool(false), Num("0"), Str(""), Arr([])}
  }

  lemma {:induction false} TruthyIff(v: Value)
    ensures IsTruthy(v) <==> !Falsy(v)
  {
  }

  // ---------------------------------------------------------------------
  // Nodes
  // ---------------------------------------------------------------------

  /** An if block with one condition. */
  function Block(c: Condition, body: seq<Node>): Node {
    IfNode([Branch(Some(c), body)])
  }

  lemma {:induction false} BlockRenders(c: Condition, body: seq<Node>, variables: Variables, partials: Partials)
    ensures EvalNode(Block(c, body), variables, partials) ==
            if Holds(c, variables) then EvalNodes(body, variables, partials) else Ok("")
  {
    var bs := [Branch(Some(c), body)];
    if Holds(c, variables) {
      IfRendersChosen(bs, 0, variables, partials);
    } else {
      IfRendersNothing(bs, variables, partials);
    }
  }

  /** `V == t` renders its body exactly if the text of V's value is `t`, and else nothing. */
  lemma {:induction false} EqualsRenders(
      name: string, t: string, body: seq<Node>, variables: Variables, partials: Partials)
    ensures EvalNode(Block(Condition(name, Equals, t), body), variables, partials) ==
            if Shown(ResolvePath(Split(name, '.'), variables)) == t then EvalNodes(body, variables, partials)
            else Ok("")
  {
    BlockRenders(Condition(name, Equals, t), body, variables, partials);
  }

  /** `V != t` renders its body exactly if the text of V's value is another. */
  lemma {:induction false} DiffersRenders(
      name: string, t: string, body: seq<Node>, variables: Variables, partials: Partials)
    ensures EvalNode(Block(Condition(name, Differs, t), body), variables, partials) ==
            if Shown(ResolvePath(Split(name, '.'), variables)) == t then Ok("")
            else EvalNodes(body, variables, partials)
  {
    BlockRenders(Condition(name, Differs, t), body, variables, partials);
  }

  /** A bare `V` renders its body exactly if the value counts as true. */
  lemma {:induction false} TruthyRenders(
      name: string, t: string, body: seq<Node>, variables: Variables, partials: Partials)
    ensures EvalNode(Block(Condition(name, Truthy, t), body), variables, partials) ==
            if Falsy(ResolvePath(Split(name, '.'), variables)) then Ok("")
            else EvalNodes(body, variables, partials)
  {
    BlockRenders(Condition(name, Truthy, t), body, variables, partials);
    TruthyIff(ResolvePath(Split(name, '.'), variables));
  }

  /** An unless block looks up its name as it is written, dots included. */
  lemma {:induction false} UnlessRenders(name: string, body: seq<Node>, variables: Variables, partials: Partials)
    ensures EvalNode(UnlessNode(name, body), variables, partials) ==
            if name !in variables || Falsy(variables[name]) then EvalNodes(body, variables, partials) else Ok("")
  {
    PathGoesOn([], name, variables);
    assert [] + [name] == [name];
    TruthyIff(ResolvePath([name], variables));
  }

  /** A loop renders its body once per item, with the item bound; only lists have items. */
  lemma {:induction false} EachRenders(
      path: seq<string>, item: string, body: seq<Node>, variables: Variables, partials: Partials, v: Value)
    ensures !ResolvePath(path, variables).Arr? ==> EvalNode(EachNode(path, item, body), variables, partials) == Ok("")
    ensures ResolvePath(path, variables).Arr? ==>
              EvalNode(EachNode(path, item, body), variables, partials) ==
              EvalEach(ResolvePath(path, variables).items, item, body, variables, partials)
    ensures EvalEach([], item, body, variables, partials) == Ok("")
    ensures EvalEach([v], item, body, variables, partials) == EvalNodes(body, variables[item := v], partials)
  {
    assert [v][1..] == [];
    var r := EvalNodes(body, variables[item := v], partials);
    assert r.Ok? ==> r.value + "" == r.value;
  }

  /** Text stands for itself, a variable for the text of its value, a partial for what it renders to. */
  lemma {:induction false} LeavesRender(text: string, path: seq<string>, variables: Variables, partials: Partials)
    ensures EvalNode(TextNode(text), variables, partials) == Ok(text)
    ensures EvalNode(VariableNode(path), variables, partials) == Ok(Shown(ResolvePath(path, variables)))
    ensures EvalNode(PartialNode(text), variables, partials) == partials(text)
  {
  }

  /** The texts of the nodes are put one after the other. */
  lemma {:induction false} NodesRender(ns: seq<Node>, k: nat, variables: Variables, partials: Partials)
    requires k < |ns| && EvalNodes(ns[..k], variables, partials).Ok? && EvalNode(ns[k], variables, partials).Ok?
    ensures EvalNodes([], variables, partials) == Ok("")
    ensures EvalNodes(ns[..k + 1], variables, partials) ==
            Ok(EvalNodes(ns[..k], variables, partials).value + EvalNode(ns[k], variables, partials).value)
  {
    EvalSnoc(ns, k, variables, partials);
  }

  /** The first node that fails fails the whole, with its own error. */
  lemma {:induction false} FirstFailure(ns: seq<Node>, k: nat, variables: Variables, partials: Partials)
    requires k < |ns| && EvalNodes(ns[..k], variables, partials).Ok? && EvalNode(ns[k], variables, partials).Err?
    ensures EvalNodes(ns, variables, partials) == EvalNode(ns[k], variables, partials)
  {
    EvalSnoc(ns, k, variables, partials);
    EvalStops(ns, k + 1, variables, partials);
  }
}
