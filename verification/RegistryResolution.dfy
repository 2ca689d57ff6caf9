/** Inheritance and includes of packages/prompt/src/registry.ts. */
module RegistryResolution {
  import opened Sequences
  import opened Wrappers
  import opened Strings
  import opened TemplateEval
  import opened TemplateConcat
  import opened RegistryVariables

  /** `ext` is "" for a prompt without a parent; `includes` is empty where the source has none. */
  datatype Meta = Meta(name: string, ext: string, includes: seq<string>, variables: seq<Definition>)

  datatype Parsed = Parsed(meta: Meta, rawBody: string)

  datatype Resolved = Resolved(meta: Meta, rawBody: string, resolvedBody: string)

  datatype Error =
    | NotFound(name: string)
    | Circular(chain: seq<string>)
    | TooDeep(name: string)

  type Database = map<string, Parsed>

  /** The files of prompts are found under their own names. */
  predicate KeyedByName(db: Database) {
    forall name | name in db :: db[name].meta.name == name
  }

  // ---------------------------------------------------------------------
  // Manual placements
  // ---------------------------------------------------------------------

  /** The pattern `{{>`, at least one character that is not `}`, and `}}` matches from `k` to `e + 2`. */
  predicate PlacementAt(body: string, k: nat, e: nat) {
    && k + 4 <= e && e + 1 < |body|
    && body[k] == '{' && body[k + 1] == '{' && body[k + 2] == '>'
    && (forall j | k + 3 <= j < e :: body[j] != '}')
    && body[e] == '}' && body[e + 1] == '}'
  }

  predicate HasPlacement(body: string) {
    exists k, e | 0 <= k < |body| && 0 <= e < |body| :: PlacementAt(body, k, e)
  }

  // ---------------------------------------------------------------------
  // What the source computes
  // ---------------------------------------------------------------------

  /** Depth left for a chain, as termination measure. */
  function Left(max: nat, chain: seq<string>): nat {
    if |chain| >= max then 0 else max - |chain|
  }

  function Resolve(db: Database, max: nat, p: Parsed, chain: seq<string>): Result<Resolved, Error>
    decreases Left(max, chain), 0, 0
  {
    var name := p.meta.name;
    if name in chain then Err(Circular(chain + [name]))
    else if |chain| >= max then Err(TooDeep(name))
    else
      var inherited :- Inherit(db, max, p, chain + [name]);
      var body :- ResolveIncludes(db, max, inherited.0, p.meta.includes, chain + [name]);
      Ok(Resolved(p.meta.(variables := inherited.1), p.rawBody, body))
  }

  /** The body with the parent's put in front, and the variables merged with the parent's. */
  function Inherit(db: Database, max: nat, p: Parsed, chain: seq<string>): Result<(string, seq<Definition>), Error>
    decreases Left(max, chain), 1, 0
  {
    if p.meta.ext == "" then Ok((p.rawBody, p.meta.variables))
    else if p.meta.ext !in db then Err(NotFound(p.meta.ext))
    else
      var parent :- Resolve(db, max, db[p.meta.ext], chain);
      Ok((parent.resolvedBody + "\n" + p.rawBody, Merge(parent.meta.variables, p.meta.variables)))
  }

  function ResolveIncludes(db: Database, max: nat, body: string, includes: seq<string>, chain: seq<string>)
    : Result<string, Error>
    decreases Left(max, chain), 2, 0
  {
    if HasPlacement(body) then Ok(body) else AppendIncludes(db, max, body, includes, chain)
  }

  function AppendIncludes(db: Database, max: nat, body: string, includes: seq<string>, chain: seq<string>)
    : Result<string, Error>
    decreases Left(max, chain), 1, |includes|
  {
    if includes == [] then Ok(body)
    else if includes[0] !in db then Err(NotFound(includes[0]))
    else
      var r :- Resolve(db, max, db[includes[0]], chain);
      AppendIncludes(db, max, body + "\n" + r.resolvedBody, includes[1..], chain)
  }

  lemma {:induction false} NoRoom(db: Database, max: nat, body: string, includes: seq<string>, chain: seq<string>)
    requires |chain| >= max && includes != []
    ensures AppendIncludes(db, max, body, includes, chain).Err?
    ensures includes[0] in db && db[includes[0]].meta.name !in chain ==>
              AppendIncludes(db, max, body, includes, chain) == Err(TooDeep(db[includes[0]].meta.name))
  {
    if includes[0] in db {
      assert Resolve(db, max, db[includes[0]], chain).Err?;
    }
  }

  /**
   * The depth limit counts includes as well: where it allows one prompt, a prompt that
   * inherits from none resolves exactly when no include of it is followed.
   */
  lemma {:induction false} IncludesCountIff(db: Database, p: Parsed)
    requires p.meta.ext == ""
    ensures Resolve(db, 1, p, []).Ok? <==> HasPlacement(p.rawBody) || p.meta.includes == []
    ensures !HasPlacement(p.rawBody) && p.meta.includes != [] && p.meta.includes[0] in db ==>
              var included := db[p.meta.includes[0]].meta.name;
              included != p.meta.name ==> Resolve(db, 1, p, []) == Err(TooDeep(included))
  {
    var name := p.meta.name;
    assert [] + [name] == [name];
    assert Inherit(db, 1, p, [name]) == Ok((p.rawBody, p.meta.variables));
    if p.meta.includes != [] {
      NoRoom(db, 1, p.rawBody, p.meta.includes, [name]);
    }
    assert ResolveIncludes(db, 1, p.rawBody, p.meta.includes, [name]).Ok? <==>
           HasPlacement(p.rawBody) || p.meta.includes == [];
  }

  // ---------------------------------------------------------------------
  // The tree of followed references: what resolution means
  // ---------------------------------------------------------------------

  datatype Tree = Tree(prompt: Parsed, parent: Option<Tree>, includes: seq<Tree>)

  /** The raw bodies in order: the ancestors', the prompt's own, those of the includes. */
  function Parts(t: Tree): (r: seq<string>)
    ensures r != []
    decreases t
  {
    OwnParts(t) + AllParts(t.includes)
  }

  function OwnParts(t: Tree): (r: seq<string>)
    ensures r != []
    decreases t, 0
  {
    (if t.parent.Some? then Parts(t.parent.value) else []) + [t.prompt.rawBody]
  }

  function AllParts(ts: seq<Tree>): seq<string>
    decreases ts
  {
    if ts == [] then [] else Parts(ts[0]) + AllParts(ts[1..])
  }

  /** The body: all parts, one below the other. */
  function Body(t: Tree): string {
    Join(Parts(t), '\n')
  }

  function Ancestry(t: Tree): seq<Parsed> {
    [t.prompt] + if t.parent.Some? then Ancestry(t.parent.value) else []
  }

  function InheritedVariables(ancestry: seq<Parsed>): seq<Definition> {
    if ancestry == [] then []
    else if |ancestry| == 1 then ancestry[0].meta.variables
    else Merge(InheritedVariables(ancestry[1..]), ancestry[0].meta.variables)
  }

  /** The number of prompts on the longest path. */
  function Height(t: Tree): (h: nat)
    ensures h > 0
    decreases t
  {
    1 + Max(if t.parent.Some? then Height(t.parent.value) else 0, Heights(t.includes))
  }

  function Heights(ts: seq<Tree>): nat
    decreases ts
  {
    if ts == [] then 0 else Max(Height(ts[0]), Heights(ts[1..]))
  }

  /** The tree follows the references: all parents, and the includes where no placement is found. */
  predicate Follows(db: Database, t: Tree)
    decreases t, 0
  {
    && (t.prompt.meta.ext == "" <==> t.parent.None?)
    && (t.parent.Some? ==>
          && t.prompt.meta.ext in db && db[t.prompt.meta.ext] == t.parent.value.prompt
          && Follows(db, t.parent.value))
    && FollowAll(db, Included(t.prompt, Join(OwnParts(t), '\n')), t.includes)
  }

  function Included(p: Parsed, body: string): seq<string> {
    if HasPlacement(body) then [] else p.meta.includes
  }

  predicate FollowAll(db: Database, names: seq<string>, ts: seq<Tree>)
    decreases ts, 0
  {
    if names == [] || ts == [] then names == [] && ts == []
    else
      && names[0] in db && db[names[0]] == ts[0].prompt && Follows(db, ts[0])
      && FollowAll(db, names[1..], ts[1..])
  }

  /** No path down the tree meets a name twice, or a name of the chain. */
  predicate NoRepeats(t: Tree, chain: seq<string>)
    decreases t, 0
  {
    && t.prompt.meta.name !in chain
    && (t.parent.Some? ==> NoRepeats(t.parent.value, chain + [t.prompt.meta.name]))
    && NoneRepeat(t.includes, chain + [t.prompt.meta.name])
  }

  predicate NoneRepeat(ts: seq<Tree>, chain: seq<string>)
    decreases ts, 0
  {
    ts != [] ==> NoRepeats(ts[0], chain) && NoneRepeat(ts[1..], chain)
  }

  // ---------------------------------------------------------------------
  // Resolution succeeds exactly when there is such a tree
  // ---------------------------------------------------------------------

  /** What resolving the root of the tree should give. */
  function Meaning(t: Tree): Resolved {
    Resolved(t.prompt.meta.(variables := InheritedVariables(Ancestry(t))), t.prompt.rawBody, Body(t))
  }

  lemma {:induction false} JoinAppend(a: seq<string>, b: seq<string>)
    requires a != [] && b != []
    ensures Join(a + b, '\n') == Join(a, '\n') + "\n" + Join(b, '\n')
  {
    if |a| > 1 {
      assert (a + b)[1..] == a[1..] + b;
      JoinAppend(a[1..], b);
      Associate(a[0] + "\n", Join(a[1..], '\n'), "\n" + Join(b, '\n'));
      Associate(Join(a[1..], '\n'), "\n", Join(b, '\n'));
      Associate(a[0] + "\n" + Join(a[1..], '\n'), "\n", Join(b, '\n'));
    } else {
      assert (a + b)[1..] == b;
    }
  }

  lemma {:induction false} TreeResolves(db: Database, max: nat, t: Tree, chain: seq<string>)
    requires Follows(db, t) && |chain| + Height(t) <= max && NoRepeats(t, chain)
    ensures Resolve(db, max, t.prompt, chain) == Ok(Meaning(t))
    decreases t, 1
  {
    var chain' := chain + [t.prompt.meta.name];
    TreeInherits(db, max, t, chain');
    var own := OwnParts(t);
    if HasPlacement(Join(own, '\n')) {
      assert FollowAll(db, [], t.includes) && t.includes == [];
      assert AllParts(t.includes) == [] && own + [] == own;
      assert Parts(t) == own;
    } else {
      TreesAppend(db, max, own, t.prompt.meta.includes, t.includes, chain');
    }
  }

  lemma {:induction false} TreeInherits(db: Database, max: nat, t: Tree, chain: seq<string>)
    requires t.prompt.meta.ext == "" <==> t.parent.None?
    requires t.parent.Some? ==>
               && t.prompt.meta.ext in db && Shows(db, max, db[t.prompt.meta.ext], chain, t.parent.value)
    ensures Inherit(db, max, t.prompt, chain) ==
            Ok((Join(OwnParts(t), '\n'), InheritedVariables(Ancestry(t))))
    decreases t, 0
  {
    if t.parent.Some? {
      var parent := t.parent.value;
      TreeResolves(db, max, parent, chain);
      JoinAppend(Parts(parent), [t.prompt.rawBody]);
      assert Ancestry(t)[1..] == Ancestry(parent);
    } else {
      assert [] + [t.prompt.rawBody] == [t.prompt.rawBody];
      assert Ancestry(t) == [t.prompt];
    }
  }

  lemma {:induction false} TreesAppend(
      db: Database, max: nat, acc: seq<string>, names: seq<string>, ts: seq<Tree>, chain: seq<string>)
    requires acc != [] && FollowAll(db, names, ts) && |chain| + Heights(ts) <= max && NoneRepeat(ts, chain)
    ensures AppendIncludes(db, max, Join(acc, '\n'), names, chain) == Ok(Join(acc + AllParts(ts), '\n'))
    decreases ts, 0
  {
    if ts == [] {
      assert acc + [] == acc;
    } else {
      TreeResolves(db, max, ts[0], chain);
      JoinAppend(acc, Parts(ts[0]));
      TreesAppend(db, max, acc + Parts(ts[0]), names[1..], ts[1..], chain);
      Associate(acc, Parts(ts[0]), AllParts(ts[1..]));
    }
  }

  /** A tree that shows why a prompt resolves. */
  predicate Shows(db: Database, max: nat, p: Parsed, chain: seq<string>, t: Tree) {
    t.prompt == p && Follows(db, t) && |chain| + Height(t) <= max && NoRepeats(t, chain)
  }

  lemma {:induction false} ResolvedTree(db: Database, max: nat, p: Parsed, chain: seq<string>) returns (t: Tree)
    requires Resolve(db, max, p, chain).Ok?
    ensures Shows(db, max, p, chain, t)
    decreases Left(max, chain), 1, 0
  {
    var chain' := chain + [p.meta.name];
    var parent: Option<Tree> := None;
    if p.meta.ext != "" {
      var above := ResolvedTree(db, max, db[p.meta.ext], chain');
      parent := Some(above);
    }
    var bare := Tree(p, parent, []);
    TreeInherits(db, max, bare, chain');
    var own := OwnParts(bare);
    var includes: seq<Tree> := [];
    if !HasPlacement(Join(own, '\n')) {
      includes := AppendedTrees(db, max, Join(own, '\n'), p.meta.includes, chain');
    }
    t := Tree(p, parent, includes);
    assert OwnParts(t) == own;
  }

  lemma {:induction false} AppendedTrees(db: Database, max: nat, body: string, names: seq<string>, chain: seq<string>)
    returns (ts: seq<Tree>)
    requires AppendIncludes(db, max, body, names, chain).Ok? && |chain| <= max
    ensures FollowAll(db, names, ts) && |chain| + Heights(ts) <= max && NoneRepeat(ts, chain)
    decreases Left(max, chain), 2, |names|
  {
    ts := [];
    if names != [] {
      var t := ResolvedTree(db, max, db[names[0]], chain);
      var first := Resolve(db, max, db[names[0]], chain).value.resolvedBody;
      var more := AppendedTrees(db, max, body + "\n" + first, names[1..], chain);
      ts := [t] + more;
      assert ts[1..] == more;
    }
  }

  /**
   * Resolution terminates on every reference graph. It succeeds if and only if the
   * followed references form a finite tree on whose paths there are at most `max`
   * prompts and no name twice, and then gives what the tree means.
   */
  lemma {:induction false} ResolveIff(db: Database, max: nat, p: Parsed)
    ensures Resolve(db, max, p, []).Ok? <==> exists t :: Shows(db, max, p, [], t)
    ensures forall t | Shows(db, max, p, [], t) :: Resolve(db, max, p, []) == Ok(Meaning(t))
  {
    if Resolve(db, max, p, []).Ok? {
      var t := ResolvedTree(db, max, p, []);
    }
    forall t | Shows(db, max, p, [], t)
      ensures Resolve(db, max, p, []) == Ok(Meaning(t))
    {
      TreeResolves(db, max, t, []);
    }
  }

  // ---------------------------------------------------------------------
  // Names repeat only on cycles
  // ---------------------------------------------------------------------

  /** A prompt has at most one tree. */
  lemma {:induction false} TreeUnique(db: Database, t: Tree, u: Tree)
    requires Follows(db, t) && Follows(db, u) && t.prompt == u.prompt
    ensures t == u
    decreases t, 0
  {
    if t.parent.Some? {
      TreeUnique(db, t.parent.value, u.parent.value);
    }
    assert OwnParts(t) == OwnParts(u);
    TreesUnique(db, Included(t.prompt, Join(OwnParts(t), '\n')), t.includes, u.includes);
  }

  lemma {:induction false} TreesUnique(db: Database, names: seq<string>, ts: seq<Tree>, us: seq<Tree>)
    requires FollowAll(db, names, ts) && FollowAll(db, names, us)
    ensures ts == us
    decreases ts, 0
  {
    if ts != [] {
      TreeUnique(db, ts[0], us[0]);
      TreesUnique(db, names[1..], ts[1..], us[1..]);
      assert ts == [ts[0]] + ts[1..] && us == [us[0]] + us[1..];
    }
  }

  predicate Filed(db: Database, t: Tree) {
    t.prompt.meta.name in db && db[t.prompt.meta.name] == t.prompt
  }

  /** Trees that hold trees of height `h` further down. */
  predicate Above(db: Database, above: seq<Tree>, h: nat) {
    forall k | 0 <= k < |above| :: Filed(db, above[k]) && Follows(db, above[k]) && Height(above[k]) > h
  }

  function Names(ts: seq<Tree>): (r: seq<string>)
    ensures |r| == |ts| && forall k | 0 <= k < |ts| :: r[k] == ts[k].prompt.meta.name
  {
    seq(|ts|, k requires 0 <= k < |ts| => ts[k].prompt.meta.name)
  }

  lemma {:induction false} FiledApart(db: Database, t: Tree, above: seq<Tree>)
    requires KeyedByName(db) && Filed(db, t) && Follows(db, t) && Above(db, above, Height(t))
    ensures NoRepeats(t, Names(above))
    decreases t, 1
  {
    var name := t.prompt.meta.name;
    if name in Names(above) {
      var k :| 0 <= k < |above| && Names(above)[k] == name;
      TreeUnique(db, t, above[k]);
    }
    assert Names(above + [t]) == Names(above) + [name];
    if t.parent.Some? {
      FiledApart(db, t.parent.value, above + [t]);
    }
    AllApart(db, Included(t.prompt, Join(OwnParts(t), '\n')), t.includes, above + [t]);
  }

  lemma {:induction false} AllApart(db: Database, names: seq<string>, ts: seq<Tree>, above: seq<Tree>)
    requires KeyedByName(db) && FollowAll(db, names, ts) && Above(db, above, Heights(ts))
    ensures NoneRepeat(ts, Names(above))
    decreases ts, 0
  {
    if ts != [] {
      FiledApart(db, ts[0], above);
      AllApart(db, names[1..], ts[1..], above);
    }
  }

  /**
   * Where prompts are filed under their names, a registered prompt resolves if and only
   * if all references followed from it exist and no path visits more than `max` prompts;
   * cycles need no separate condition.
   */
  lemma {:induction false} ResolveFiledIff(db: Database, max: nat, name: string)
    requires KeyedByName(db) && name in db
    ensures Resolve(db, max, db[name], []).Ok? <==>
            exists t: Tree :: t.prompt == db[name] && Follows(db, t) && Height(t) <= max
  {
    ResolveIff(db, max, db[name]);
    forall t: Tree | t.prompt == db[name] && Follows(db, t) && Height(t) <= max
      ensures Shows(db, max, db[name], [], t)
    {
      FiledApart(db, t, []);
      assert Names([]) == [];
    }
  }

  // ---------------------------------------------------------------------
  // What the errors mean
  // ---------------------------------------------------------------------

  predicate Refers(db: Database, from: string, to: string) {
    from in db && ((to != "" && db[from].meta.ext == to) || to in db[from].meta.includes)
  }

  /** Each name refers to the next, and only the last may be missing or repeat an earlier one. */
  predicate Trail(db: Database, c: seq<string>) {
    && (forall k | 0 <= k < |c| - 1 :: Refers(db, c[k], c[k + 1]))
    && (forall j, k | 0 <= j < k < |c| - 1 :: c[j] != c[k])
  }

  /** The trail of references that justifies an error. */
  predicate Justifies(db: Database, max: nat, name: string, e: Error, c: seq<string>) {
    && c != [] && c[0] == name && Trail(db, c)
    && match e
       case NotFound(n) => c[|c| - 1] == n && n !in db && |c| <= max + 1
       case Circular(cycle) => c == cycle && c[|c| - 1] in c[..|c| - 1] && |c| <= max + 1
       case TooDeep(n) => c[|c| - 1] == n && n in db && n !in c[..|c| - 1] && |c| == max + 1
  }

  /** The names on the way to a prompt being resolved. */
  predicate OnTrail(db: Database, max: nat, name: string, chain: seq<string>, last: string) {
    && |chain| <= max && Trail(db, chain + [last]) && (chain + [last])[0] == name
  }

  lemma {:induction false} ErrorTrail(db: Database, max: nat, name: string, p: Parsed, chain: seq<string>)
    returns (c: seq<string>)
    requires KeyedByName(db) && p.meta.name in db && p == db[p.meta.name]
    requires OnTrail(db, max, name, chain, p.meta.name) && Resolve(db, max, p, chain).Err?
    ensures Justifies(db, max, name, Resolve(db, max, p, chain).error, c)
    decreases Left(max, chain), 0, 0
  {
    c := chain + [p.meta.name];
    assert c[..|c| - 1] == chain;
    if p.meta.name !in chain && |chain| < max {
      if Inherit(db, max, p, c).Err? {
        c := InheritTrail(db, max, name, p, c);
      } else {
        var body := Inherit(db, max, p, c).value.0;
        c := AppendTrail(db, max, name, p, body, p.meta.includes, c);
      }
    }
  }

  lemma {:induction false} InheritTrail(db: Database, max: nat, name: string, p: Parsed, chain: seq<string>)
    returns (c: seq<string>)
    requires KeyedByName(db) && p.meta.name in db && p == db[p.meta.name]
    requires Visiting(db, max, name, p, chain) && Inherit(db, max, p, chain).Err?
    ensures Justifies(db, max, name, Inherit(db, max, p, chain).error, c)
    decreases Left(max, chain), 1, 0
  {
    TrailGoesOn(db, max, name, p, chain, p.meta.ext);
    c := chain + [p.meta.ext];
    if p.meta.ext in db {
      c := ErrorTrail(db, max, name, db[p.meta.ext], chain);
    }
  }

  /** The chain ends with the prompt whose references are being followed. */
  predicate Visiting(db: Database, max: nat, name: string, p: Parsed, chain: seq<string>) {
    && 0 < |chain| <= max && chain[|chain| - 1] == p.meta.name && chain[0] == name && Trail(db, chain)
    && forall j, k | 0 <= j < k < |chain| :: chain[j] != chain[k]
  }

  lemma {:induction false} TrailGoesOn(
      db: Database, max: nat, name: string, p: Parsed, chain: seq<string>, next: string)
    requires Visiting(db, max, name, p, chain) && Refers(db, p.meta.name, next)
    ensures OnTrail(db, max, name, chain, next)
  {
  }

  lemma {:induction false} AppendTrail(
      db: Database, max: nat, name: string, p: Parsed, body: string, includes: seq<string>, chain: seq<string>)
    returns (c: seq<string>)
    requires KeyedByName(db) && p.meta.name in db && p == db[p.meta.name] && Visiting(db, max, name, p, chain)
    requires forall k | 0 <= k < |includes| :: includes[k] in p.meta.includes
    requires AppendIncludes(db, max, body, includes, chain).Err?
    ensures Justifies(db, max, name, AppendIncludes(db, max, body, includes, chain).error, c)
    decreases Left(max, chain), 1, |includes|
  {
    TrailGoesOn(db, max, name, p, chain, includes[0]);
    c := chain + [includes[0]];
    if includes[0] in db {
      var r := Resolve(db, max, db[includes[0]], chain);
      if r.Err? {
        c := ErrorTrail(db, max, name, db[includes[0]], chain);
      } else {
        c := AppendTrail(db, max, name, p, body + "\n" + r.value.resolvedBody, includes[1..], chain);
      }
    }
  }

  /**
   * Errors are true: a missing prompt is referred to and missing, a reported cycle is
   * a cycle of references, and a prompt that is too deep ends a path of distinct
   * prompts one longer than allowed.
   */
  lemma {:induction false} ErrorsAreTrue(db: Database, max: nat, name: string)
    requires KeyedByName(db) && name in db && Resolve(db, max, db[name], []).Err?
    ensures exists c :: Justifies(db, max, name, Resolve(db, max, db[name], []).error, c)
  {
    assert [] + [name] == [name];
    var c := ErrorTrail(db, max, name, db[name], []);
  }

  // ---------------------------------------------------------------------
  // Variables and rendering of a resolved prompt
  // ---------------------------------------------------------------------

  /** The definition of a variable in the nearest prompt that declares it. */
  function NearestDef(ancestry: seq<Parsed>, v: string): Option<Definition> {
    if ancestry == [] then None
    else if Declares(ancestry[0].meta.variables, v) then LastDef(ancestry[0].meta.variables, v)
    else NearestDef(ancestry[1..], v)
  }

  lemma {:induction false} NearestWins(ancestry: seq<Parsed>, v: string)
    ensures LastDef(InheritedVariables(ancestry), v) == NearestDef(ancestry, v)
    ensures |ancestry| > 1 ==> DistinctNames(InheritedVariables(ancestry))
  {
    if ancestry != [] {
      LastDefIff(ancestry[0].meta.variables, v);
      if |ancestry| > 1 {
        NearestWins(ancestry[1..], v);
        MergeOverrides(InheritedVariables(ancestry[1..]), ancestry[0].meta.variables, v);
      } else {
        assert NearestDef(ancestry[1..], v) == None;
      }
    }
  }

  /** A resolved variable is defined as in the nearest declaring prompt of the extends chain. */
  lemma {:induction false} ResolvedVariables(db: Database, max: nat, t: Tree, chain: seq<string>, v: string)
    requires Shows(db, max, t.prompt, chain, t)
    ensures Resolve(db, max, t.prompt, chain).Ok?
    ensures LastDef(Resolve(db, max, t.prompt, chain).value.meta.variables, v) == NearestDef(Ancestry(t), v)
  {
    TreeResolves(db, max, t, chain);
    NearestWins(Ancestry(t), v);
  }

  /** The parts rendered one by one, one below the other. */
  ghost function RenderParts(parts: seq<string>, variables: Variables, partials: Partials): Result<string, string>
    requires parts != []
  {
    var first := Render(parts[0], variables, partials);
    if |parts| == 1 then first
    else Then(Then(first, Ok("\n")), RenderParts(parts[1..], variables, partials))
  }

  ghost predicate AllClosed(parts: seq<string>) {
    forall k | 0 <= k < |parts| :: ClosedTemplate(parts[k])
  }

  lemma {:induction false} RenderJoined(parts: seq<string>, variables: Variables, partials: Partials)
    requires parts != [] && AllClosed(parts[..|parts| - 1])
    ensures Render(Join(parts, '\n'), variables, partials) == RenderParts(parts, variables, partials)
    ensures ClosedTemplate(parts[|parts| - 1]) ==> ClosedTemplate(Join(parts, '\n'))
  {
    if |parts| > 1 {
      var rest := parts[1..];
      assert rest[..|rest| - 1] == parts[..|parts| - 1][1..];
      assert parts[..|parts| - 1][0] == parts[0];
      RenderJoined(rest, variables, partials);
      RenderConcat(parts[0], Join(rest, '\n'), variables, partials);
      assert parts[0] + ['\n'] + Join(rest, '\n') == parts[0] + "\n" + Join(rest, '\n');
    }
  }

  /**
   * Inheritance and appended includes by string concatenation are sound: if the raw
   * bodies close their tags and blocks, a resolved prompt renders as its ancestors,
   * itself and its includes rendered one below the other.
   */
  lemma {:induction false} ResolvedRenders(db: Database, max: nat, t: Tree, variables: Variables, partials: Partials)
    requires Shows(db, max, t.prompt, [], t) && AllClosed(Parts(t))
    ensures Resolve(db, max, t.prompt, []).Ok?
    ensures var r := Resolve(db, max, t.prompt, []).value;
            && Render(r.resolvedBody, variables, partials) == RenderParts(Parts(t), variables, partials)
            && ClosedTemplate(r.resolvedBody)
  {
    TreeResolves(db, max, t, []);
    RenderJoined(Parts(t), variables, partials);
  }
}