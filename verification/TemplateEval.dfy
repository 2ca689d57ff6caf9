/** The evaluator of packages/prompt/src/renderer.ts. */
module TemplateEval {
  import opened Wrappers
  import opened Strings
  import opened TemplateTokens
  import opened TemplateParser

  /** A JavaScript value. A number is kept as the text `String` gives for it. */
  datatype Value =
    | Undefined
    | Null
    | Bool(b: bool)
    | Num(text: string)
    | Str(s: string)
    | Arr(items: seq<Value>)
    | Obj(fields: map<string, Value>)

  type Variables = map<string, Value>

  /** Renders a partial, or fails with the name of a prompt that could not be resolved. */
  type Partials = string -> Result<string, string>

  function Digit(d: nat): char
    requires d < 10
  {
    "0123456789"[d]
  }

  function Decimal(n: nat): string {
    if n < 10 then [Digit(n)] else Decimal(n / 10) + [Digit(n % 10)]
  }

  function ParseDigits(s: string): Option<nat> {
    if s == "" then Some(0)
    else if '0' <= s[|s| - 1] <= '9' then
      match ParseDigits(s[..|s| - 1])
      case None => None
      case Some(n) => Some(10 * n + (s[|s| - 1] as int - '0' as int))
    else None
  }

  /** The array index a property name denotes. */
  function ParseIndex(s: string): Option<nat> {
    if s == "" || (s[0] == '0' && s != "0") then None else ParseDigits(s)
  }

  function Property(v: Value, name: string): Value {
    match v
    case Obj(fields) => if name in fields then fields[name] else Undefined
    case Arr(items) =>
      if name == "length" then Num(Decimal(|items|))
      else
        (match ParseIndex(name)
         case None => Undefined
         case Some(i) => if i < |items| then items[i] else Undefined)
    case _ => Undefined
  }

  function Walk(v: Value, path: seq<string>): Value
    decreases |path|
  {
    if path == [] then v else Walk(Property(v, path[0]), path[1..])
  }

  function ResolvePath(path: seq<string>, variables: Variables): Value {
    Walk(Obj(variables), path)
  }

  predicate Nullish(v: Value) {
    v.Undefined? || v.Null?
  }

  /** `String(v)` */
  function StringOf(v: Value): string
    decreases v, 0
  {
    match v
    case Undefined => "undefined"
    case Null => "null"
    case Bool(b) => if b then "true" else "false"
    case Num(text) => text
    case Str(s) => s
    case Arr(items) => JoinItems(items)
    case Obj(_) => "[object Object]"
  }

  function JoinItems(items: seq<Value>): string
    decreases items, 0
  {
    if items == [] then ""
    else
      var first := if Nullish(items[0]) then "" else StringOf(items[0]);
      if |items| == 1 then first else first + "," + JoinItems(items[1..])
  }

  predicate IsTruthy(v: Value) {
    match v
    case Undefined => false
    case Null => false
    case Bool(b) => b
    case Num(text) => text != "0"
    case Str(s) => s != ""
    case Arr(items) => items != []
    case Obj(_) => true
  }

  predicate Holds(condition: Condition, variables: Variables) {
    var v := ResolvePath(Split(condition.variable, '.'), variables);
    var text := if Nullish(v) then "" else StringOf(v);
    match condition.operator
    case Truthy => IsTruthy(v)
    case Equals => text == condition.value
    case Differs => text != condition.value
  }

  /** Output so far followed by further output; the first failure wins. */
  function Then(a: Result<string, string>, b: Result<string, string>): Result<string, string> {
    if a.Err? then a else if b.Err? then b else Ok(a.value + b.value)
  }

  function EvalNodes(ns: seq<Node>, variables: Variables, partials: Partials): Result<string, string>
    decreases ns, 0, 0
  {
    if ns == [] then Ok("")
    else Then(EvalNode(ns[0], variables, partials), EvalNodes(ns[1..], variables, partials))
  }

  function EvalNode(n: Node, variables: Variables, partials: Partials): Result<string, string>
    decreases n, 0, 0
  {
    match n
    case TextNode(value) => Ok(value)
    case VariableNode(path) =>
      var v := ResolvePath(path, variables);
      Ok(if Nullish(v) then "" else StringOf(v))
    case PartialNode(name) => partials(name)
    case IfNode(branches) => EvalBranches(branches, variables, partials)
    case UnlessNode(variable, body) =>
      if IsTruthy(ResolvePath([variable], variables)) then Ok("") else EvalNodes(body, variables, partials)
    case EachNode(path, item, body) =>
      var v := ResolvePath(path, variables);
      if v.Arr? then EvalEach(v.items, item, body, variables, partials) else Ok("")
  }

  function EvalBranches(bs: seq<Branch>, variables: Variables, partials: Partials): Result<string, string>
    decreases bs, 0, 0
  {
    if bs == [] then Ok("")
    else if bs[0].condition.None? || Holds(bs[0].condition.value, variables) then
      EvalNodes(bs[0].body, variables, partials)
    else EvalBranches(bs[1..], variables, partials)
  }

  /** One round of the body per item, with the item bound over the outer variables. */
  function EvalEach(items: seq<Value>, item: string, body: seq<Node>, variables: Variables, partials: Partials)
    : Result<string, string>
    decreases body, 1, |items|
  {
    if items == [] then Ok("")
    else
      Then(EvalNodes(body, variables[item := items[0]], partials),
           EvalEach(items[1..], item, body, variables, partials))
  }

  lemma {:induction false} EvalAppend(a: seq<Node>, b: seq<Node>, variables: Variables, partials: Partials)
    ensures EvalNodes(a + b, variables, partials) ==
            Then(EvalNodes(a, variables, partials), EvalNodes(b, variables, partials))
    decreases |a|
  {
    if a == [] {
      assert a + b == b;
      var r := EvalNodes(b, variables, partials);
      assert r.Ok? ==> "" + r.value == r.value;
    } else {
      assert (a + b)[1..] == a[1..] + b && (a + b)[0] == a[0];
      EvalAppend(a[1..], b, variables, partials);
      ThenAssoc(EvalNode(a[0], variables, partials), EvalNodes(a[1..], variables, partials),
                EvalNodes(b, variables, partials));
    }
  }

  lemma {:induction false} ThenAssoc(a: Result<string, string>, b: Result<string, string>, c: Result<string, string>)
    ensures Then(Then(a, b), c) == Then(a, Then(b, c))
  {
    if a.Ok? && b.Ok? && c.Ok? {
      assert a.value + b.value + c.value == a.value + (b.value + c.value);
    }
  }

  // ---------------------------------------------------------------------
  // Branches and loops
  // ---------------------------------------------------------------------

  /** The branch that counts: none before it holds, and it holds or is an else branch. */
  predicate Chosen(bs: seq<Branch>, k: nat, variables: Variables) {
    && k < |bs|
    && (bs[k].condition.None? || Holds(bs[k].condition.value, variables))
    && forall j | 0 <= j < k :: bs[j].condition.Some? && !Holds(bs[j].condition.value, variables)
  }

  /** An if block renders its chosen branch. */
  lemma {:induction false} IfRendersChosen(bs: seq<Branch>, k: nat, variables: Variables, partials: Partials)
    requires Chosen(bs, k, variables)
    ensures EvalBranches(bs, variables, partials) == EvalNodes(bs[k].body, variables, partials)
    decreases k
  {
    if k > 0 {
      var rest := bs[1..];
      assert bs[0].condition.Some? && !Holds(bs[0].condition.value, variables);
      assert forall j | 0 <= j < k :: rest[j] == bs[j + 1];
      IfRendersChosen(rest, k - 1, variables, partials);
    }
  }

  /** An if block without a chosen branch renders nothing. */
  lemma {:induction false} IfRendersNothing(bs: seq<Branch>, variables: Variables, partials: Partials)
    requires forall k | 0 <= k < |bs| :: bs[k].condition.Some? && !Holds(bs[k].condition.value, variables)
    ensures EvalBranches(bs, variables, partials) == Ok("")
    decreases |bs|
  {
    if bs != [] {
      IfRendersNothing(bs[1..], variables, partials);
    }
  }

  /** A loop over two lists is the loop over the first, then over the second. */
  lemma {:induction false} EachAppend(
      a: seq<Value>, b: seq<Value>, item: string, body: seq<Node>, variables: Variables, partials: Partials)
    ensures EvalEach(a + b, item, body, variables, partials) ==
            Then(EvalEach(a, item, body, variables, partials), EvalEach(b, item, body, variables, partials))
    decreases |a|
  {
    if a == [] {
      assert a + b == b;
      var r := EvalEach(b, item, body, variables, partials);
      assert r.Ok? ==> "" + r.value == r.value;
    } else {
      assert (a + b)[0] == a[0] && (a + b)[1..] == a[1..] + b;
      EachAppend(a[1..], b, item, body, variables, partials);
      ThenAssoc(EvalNodes(body, variables[item := a[0]], partials), EvalEach(a[1..], item, body, variables, partials),
                EvalEach(b, item, body, variables, partials));
    }
  }

  /** Inside a loop an outer variable of the item's name is invisible. */
  lemma {:induction false} LoopShadows(
      items: seq<Value>, item: string, body: seq<Node>, variables: Variables, partials: Partials, outer: Value)
    ensures EvalEach(items, item, body, variables[item := outer], partials) ==
            EvalEach(items, item, body, variables, partials)
    decreases |items|
  {
    if items != [] {
      assert variables[item := outer][item := items[0]] == variables[item := items[0]];
      LoopShadows(items[1..], item, body, variables, partials, outer);
    }
  }

  /** `renderTemplate`, with the partials as a function. */
  ghost function Render(template: string, variables: Variables, partials: Partials): Result<string, string> {
    EvalNodes(Parse(Tokens(template)), variables, partials)
  }

  // ---------------------------------------------------------------------
  // The evaluator as the source writes it
  // ---------------------------------------------------------------------

  method EvaluateNodes(nodes: seq<Node>, variables: Variables, partials: Partials)
    returns (r: Result<string, string>)
    ensures r == EvalNodes(nodes, variables, partials)
    decreases nodes, 0, 0
  {
    var parts: Result<string, string> := Ok("");
    var k := 0;
    assert nodes[..0] == [];
    while k < |nodes| && parts.Ok?
      invariant 0 <= k <= |nodes|
      invariant parts == EvalNodes(nodes[..k], variables, partials)
      decreases |nodes| - k, parts.Ok?
    {
      var more := EvaluateNode(nodes[k], variables, partials);
      EvalSnoc(nodes, k, variables, partials);
      parts := Then(parts, more);
      k := k + 1;
    }
    EvalStops(nodes, k, variables, partials);
    r := parts;
  }

  lemma {:induction false} EvalSnoc(nodes: seq<Node>, k: nat, variables: Variables, partials: Partials)
    requires k < |nodes|
    ensures EvalNodes(nodes[..k + 1], variables, partials) ==
            Then(EvalNodes(nodes[..k], variables, partials), EvalNode(nodes[k], variables, partials))
  {
    assert nodes[..k + 1] == nodes[..k] + [nodes[k]];
    EvalAppend(nodes[..k], [nodes[k]], variables, partials);
    EvalOne(nodes[k], variables, partials);
  }

  lemma {:induction false} EvalOne(n: Node, variables: Variables, partials: Partials)
    ensures EvalNodes([n], variables, partials) == EvalNode(n, variables, partials)
  {
    assert [n][1..] == [];
    var r := EvalNode(n, variables, partials);
    assert r.Ok? ==> r.value + "" == r.value;
  }

  /** Once an evaluation has failed, the nodes after it do not matter. */
  lemma {:induction false} EvalStops(nodes: seq<Node>, k: nat, variables: Variables, partials: Partials)
    requires k <= |nodes| && (k == |nodes| || EvalNodes(nodes[..k], variables, partials).Err?)
    ensures EvalNodes(nodes, variables, partials) == EvalNodes(nodes[..k], variables, partials)
  {
    assert nodes == nodes[..k] + nodes[k..];
    if k < |nodes| {
      EvalAppend(nodes[..k], nodes[k..], variables, partials);
    } else {
      assert nodes[..k] == nodes;
    }
  }

  method EvaluateNode(n: Node, variables: Variables, partials: Partials) returns (r: Result<string, string>)
    ensures r == EvalNode(n, variables, partials)
    decreases n, 0, 0
  {
    match n
    case TextNode(value) =>
      r := Ok(value);
    case VariableNode(path) =>
      var v := ResolvePath(path, variables);
      r := Ok(if Nullish(v) then "" else StringOf(v));
    case PartialNode(name) =>
      r := partials(name);
    case IfNode(branches) =>
      r := EvaluateBranches(branches, variables, partials);
    case UnlessNode(variable, body) =>
      r := Ok("");
      if !IsTruthy(ResolvePath([variable], variables)) {
        r := EvaluateNodes(body, variables, partials);
      }
    case EachNode(path, item, body) =>
      r := Ok("");
      var v := ResolvePath(path, variables);
      if v.Arr? {
        r := EvaluateEach(v.items, item, body, variables, partials);
      }
  }

  method EvaluateBranches(branches: seq<Branch>, variables: Variables, partials: Partials)
    returns (r: Result<string, string>)
    ensures r == EvalBranches(branches, variables, partials)
    decreases branches, 0, 0
  {
    var k := 0;
    while k < |branches|
      && !(branches[k].condition.None? || Holds(branches[k].condition.value, variables))
      invariant 0 <= k <= |branches|
      invariant EvalBranches(branches[k..], variables, partials) == EvalBranches(branches, variables, partials)
    {
      assert branches[k..][1..] == branches[k + 1..];
      k := k + 1;
    }
    r := Ok("");
    if k < |branches| {
      r := EvaluateNodes(branches[k].body, variables, partials);
    }
  }

  method EvaluateEach(items: seq<Value>, item: string, body: seq<Node>, variables: Variables, partials: Partials)
    returns (r: Result<string, string>)
    ensures r == EvalEach(items, item, body, variables, partials)
    decreases body, 1, 0
  {
    r := Ok("");
    var k := 0;
    assert items[0..] == items;
    ghost var whole := EvalEach(items, item, body, variables, partials);
    assert Then(r, whole) == whole by {
      assert whole.Ok? ==> "" + whole.value == whole.value;
    }
    while k < |items| && r.Ok?
      invariant 0 <= k <= |items|
      invariant Then(r, EvalEach(items[k..], item, body, variables, partials)) == whole
      decreases |items| - k, r.Ok?
    {
      assert items[k..][1..] == items[k + 1..];
      var loopVars := variables[item := items[k]];
      var more := EvaluateNodes(body, loopVars, partials);
      ThenAssoc(r, more, EvalEach(items[k + 1..], item, body, variables, partials));
      r := Then(r, more);
      k := k + 1;
    }
    assert r.Ok? ==> r.value + "" == r.value;
  }

  method RenderTemplate(template: string, variables: Variables, partials: Partials)
    returns (r: Result<string, string>)
    ensures r == Render(template, variables, partials)
  {
    var nodes := ReadTemplate(template);
    r := EvaluateNodes(nodes, variables, partials);
  }
}
