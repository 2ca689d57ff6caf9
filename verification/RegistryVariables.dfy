/** Variable definitions of packages/prompt/src/registry.ts: inheritance, defaults, required values. */
module RegistryVariables {
  import opened Wrappers
  import opened TemplateEval

  /** `fallback` is `Undefined` when the definition has no default. */
  datatype Definition = Definition(name: string, required: bool, fallback: Value)

  // ---------------------------------------------------------------------
  // Merging
  // ---------------------------------------------------------------------

  /** `Map.set` on a map listed in insertion order: an existing key keeps its place. */
  function Put(m: seq<Definition>, d: Definition): seq<Definition> {
    if m == [] then [d]
    else if m[0].name == d.name then [d] + m[1..]
    else [m[0]] + Put(m[1..], d)
  }

  function PutAll(m: seq<Definition>, ds: seq<Definition>): seq<Definition>
    decreases |ds|
  {
    if ds == [] then m else PutAll(Put(m, ds[0]), ds[1..])
  }

  function Merge(parent: seq<Definition>, child: seq<Definition>): seq<Definition> {
    PutAll(PutAll([], parent), child)
  }

  /** `mergeVariables` */
  method MergeVariables(parent: seq<Definition>, child: seq<Definition>) returns (merged: seq<Definition>)
    ensures merged == Merge(parent, child)
  {
    merged := [];
    assert parent[0..] == parent && child[0..] == child;
    for i := 0 to |parent|
      invariant PutAll(merged, parent[i..]) == PutAll([], parent)
    {
      assert parent[i..][1..] == parent[i + 1..];
      merged := Put(merged, parent[i]);
    }
    for i := 0 to |child|
      invariant PutAll(merged, child[i..]) == Merge(parent, child)
    {
      assert child[i..][1..] == child[i + 1..];
      merged := Put(merged, child[i]);
    }
  }

  /** The last definition of a variable in a list. */
  function LastDef(ds: seq<Definition>, v: string): (r: Option<Definition>)
    ensures r.Some? ==> r.value in ds && r.value.name == v
  {
    if ds == [] then None
    else
      var later := LastDef(ds[1..], v);
      if later.Some? then later else if ds[0].name == v then Some(ds[0]) else None
  }

  predicate Declares(ds: seq<Definition>, v: string) {
    exists k | 0 <= k < |ds| :: ds[k].name == v
  }

  lemma {:induction false} LastDefIff(ds: seq<Definition>, v: string)
    ensures LastDef(ds, v).Some? <==> Declares(ds, v)
  {
    if ds != [] {
      LastDefIff(ds[1..], v);
      assert ds[0].name == v ==> Declares(ds, v);
      if Declares(ds[1..], v) {
        var k :| 0 <= k < |ds[1..]| && ds[1..][k].name == v;
        assert ds[k + 1].name == v;
      }
      if Declares(ds, v) && ds[0].name != v {
        var k :| 0 <= k < |ds| && ds[k].name == v;
        assert ds[1..][k - 1].name == v;
      }
    }
  }

  predicate DistinctNames(ds: seq<Definition>) {
    forall i, j | 0 <= i < j < |ds| :: ds[i].name != ds[j].name
  }

  lemma {:induction false} PutKeeps(m: seq<Definition>, d: Definition, v: string)
    requires DistinctNames(m)
    ensures LastDef(Put(m, d), v) == if v == d.name then Some(d) else LastDef(m, v)
    ensures DistinctNames(Put(m, d))
    ensures forall k | 0 <= k < |Put(m, d)| :: Put(m, d)[k].name == d.name || Declares(m, Put(m, d)[k].name)
  {
    if m == [] {
      assert [d][1..] == [];
    } else {
      var rest := m[1..];
      assert forall i, j | 0 <= i < j < |rest| :: rest[i] == m[i + 1] && rest[j] == m[j + 1];
      if m[0].name == d.name {
        assert ([d] + rest)[1..] == rest;
        LastDefIff(rest, d.name);
      } else {
        PutKeeps(rest, d, v);
        PutRest(m, d);
      }
    }
  }

  lemma {:induction false} PutRest(m: seq<Definition>, d: Definition)
    requires m != [] && DistinctNames(m) && m[0].name != d.name
    requires DistinctNames(Put(m[1..], d))
    requires forall k | 0 <= k < |Put(m[1..], d)| ::
               Put(m[1..], d)[k].name == d.name || Declares(m[1..], Put(m[1..], d)[k].name)
    ensures Put(m, d) != [] && Put(m, d)[0] == m[0] && Put(m, d)[1..] == Put(m[1..], d)
    ensures DistinctNames(Put(m, d))
    ensures forall k | 0 <= k < |Put(m, d)| :: Put(m, d)[k].name == d.name || Declares(m, Put(m, d)[k].name)
  {
    var tail, all := Put(m[1..], d), Put(m, d);
    assert all == [m[0]] + tail;
    forall k | 0 <= k < |tail|
      ensures tail[k].name != m[0].name && (tail[k].name == d.name || Declares(m, tail[k].name))
    {
      if tail[k].name != d.name {
        var j :| 0 <= j < |m[1..]| && m[1..][j].name == tail[k].name;
        assert m[j + 1].name == tail[k].name;
      }
    }
    assert Declares(m, m[0].name);
    forall k | 0 < k < |all|
      ensures all[k] == tail[k - 1]
    {
    }
  }

  lemma {:induction false} PutAllKeeps(m: seq<Definition>, ds: seq<Definition>, v: string)
    requires DistinctNames(m)
    ensures LastDef(PutAll(m, ds), v) == if LastDef(ds, v).Some? then LastDef(ds, v) else LastDef(m, v)
    ensures DistinctNames(PutAll(m, ds))
    decreases |ds|
  {
    if ds != [] {
      PutKeeps(m, ds[0], v);
      PutAllKeeps(Put(m, ds[0]), ds[1..], v);
    }
  }

  /** The child's definition wins, otherwise the parent's; and each name is defined once. */
  lemma {:induction false} MergeOverrides(parent: seq<Definition>, child: seq<Definition>, v: string)
    ensures LastDef(Merge(parent, child), v) ==
            if Declares(child, v) then LastDef(child, v) else LastDef(parent, v)
    ensures DistinctNames(Merge(parent, child))
  {
    PutAllKeeps([], parent, v);
    PutAllKeeps(PutAll([], parent), child, v);
    LastDefIff(child, v);
  }

  /** The names in order of their first occurrence. */
  function FirstNames(ds: seq<Definition>): seq<string> {
    if ds == [] then []
    else
      var names, last := FirstNames(ds[..|ds| - 1]), ds[|ds| - 1].name;
      if last in names then names else names + [last]
  }

  function NamesOf(ds: seq<Definition>): (names: seq<string>)
    ensures |names| == |ds| && forall k | 0 <= k < |ds| :: names[k] == ds[k].name
  {
    if ds == [] then [] else [ds[0].name] + NamesOf(ds[1..])
  }

  lemma {:induction false} PutNames(m: seq<Definition>, d: Definition)
    ensures NamesOf(Put(m, d)) == if d.name in NamesOf(m) then NamesOf(m) else NamesOf(m) + [d.name]
  {
    if m != [] {
      if m[0].name == d.name {
        assert ([d] + m[1..])[1..] == m[1..];
      } else {
        PutNames(m[1..], d);
        assert ([m[0]] + Put(m[1..], d))[1..] == Put(m[1..], d);
      }
    }
  }

  lemma {:induction false} PutAllSnoc(m: seq<Definition>, ds: seq<Definition>, d: Definition)
    ensures PutAll(m, ds + [d]) == Put(PutAll(m, ds), d)
    decreases |ds|
  {
    if ds == [] {
      assert (ds + [d])[1..] == [];
    } else {
      assert (ds + [d])[1..] == ds[1..] + [d];
      PutAllSnoc(Put(m, ds[0]), ds[1..], d);
    }
  }

  lemma {:induction false} PutAllNames(ds: seq<Definition>)
    ensures NamesOf(PutAll([], ds)) == FirstNames(ds)
    decreases |ds|
  {
    if ds != [] {
      var init, d := ds[..|ds| - 1], ds[|ds| - 1];
      assert ds == init + [d];
      PutAllNames(init);
      PutAllSnoc([], init, d);
      PutNames(PutAll([], init), d);
    }
  }

  lemma {:induction false} PutAllAppend(m: seq<Definition>, a: seq<Definition>, b: seq<Definition>)
    ensures PutAll(m, a + b) == PutAll(PutAll(m, a), b)
    decreases |a|
  {
    if a == [] {
      assert a + b == b;
    } else {
      assert (a + b)[1..] == a[1..] + b;
      PutAllAppend(Put(m, a[0]), a[1..], b);
    }
  }

  /** Overridden variables keep their place: the order is that of first occurrence, the parent's first. */
  lemma {:induction false} MergeOrder(parent: seq<Definition>, child: seq<Definition>)
    ensures NamesOf(Merge(parent, child)) == FirstNames(parent + child)
  {
    PutAllAppend([], parent, child);
    PutAllNames(parent + child);
  }

  // ---------------------------------------------------------------------
  // Defaults and required variables
  // ---------------------------------------------------------------------

  function Lookup(variables: Variables, v: string): Value {
    if v in variables then variables[v] else Undefined
  }

  /** The first default a list of definitions gives a variable. */
  function FirstDefault(ds: seq<Definition>, v: string): Value {
    if ds == [] then Undefined
    else if ds[0].name == v && ds[0].fallback != Undefined then ds[0].fallback
    else FirstDefault(ds[1..], v)
  }

  lemma {:induction false} FirstDefaultSnoc(ds: seq<Definition>, n: nat, v: string)
    requires n < |ds|
    ensures FirstDefault(ds[..n + 1], v) ==
            if FirstDefault(ds[..n], v) != Undefined then FirstDefault(ds[..n], v)
            else if ds[n].name == v then ds[n].fallback else Undefined
    decreases n
  {
    if n > 0 {
      assert ds[..n][1..] == ds[1..][..n - 1] && ds[..n + 1][1..] == ds[1..][..n];
      FirstDefaultSnoc(ds[1..], n - 1, v);
    } else {
      assert ds[..1][1..] == [];
    }
  }

  /** A provided value wins; otherwise the first default counts. */
  ghost predicate Defaulted(provided: Variables, ds: seq<Definition>, result: Variables) {
    forall v: string ::
      Lookup(result, v) == if Lookup(provided, v) != Undefined then Lookup(provided, v) else FirstDefault(ds, v)
  }

  /** Definition `k` gives the first default of the variable. */
  predicate DefaultAt(ds: seq<Definition>, v: string, k: nat) {
    && k < |ds| && ds[k].name == v && ds[k].fallback != Undefined
    && forall j | 0 <= j < k :: ds[j].name != v || ds[j].fallback == Undefined
  }

  lemma {:induction false} FirstDefaultIs(ds: seq<Definition>, v: string, k: nat)
    ensures DefaultAt(ds, v, k) ==> FirstDefault(ds, v) == ds[k].fallback
    ensures (forall j: nat | j < |ds| :: ds[j].name == v ==> ds[j].fallback == Undefined) ==>
              FirstDefault(ds, v) == Undefined
  {
    if ds != [] {
      FirstDefaultIs(ds[1..], v, if k > 0 then k - 1 else 0);
      if k > 0 && DefaultAt(ds, v, k) {
        assert DefaultAt(ds[1..], v, k - 1) by {
          assert forall j | 0 <= j < k - 1 :: ds[1..][j] == ds[j + 1];
        }
      }
      assert forall j | 0 <= j < |ds[1..]| :: ds[1..][j] == ds[j + 1];
    }
  }

  /** What defaults make of a variable that has a value, of one that only has a default, and of any other. */
  lemma {:induction false} DefaultedIs(
      provided: Variables, ds: seq<Definition>, result: Variables, v: string, k: nat)
    requires Defaulted(provided, ds, result)
    ensures v in provided && provided[v] != Undefined ==> v in result && result[v] == provided[v]
    ensures (v !in provided || provided[v] == Undefined) && DefaultAt(ds, v, k) ==>
              v in result && result[v] == ds[k].fallback
    ensures (v !in provided || provided[v] == Undefined)
            && (forall j: nat | j < |ds| :: ds[j].name == v ==> ds[j].fallback == Undefined) ==>
              v !in result || result[v] == Undefined
  {
    FirstDefaultIs(ds, v, k);
    assert Lookup(result, v) == if Lookup(provided, v) != Undefined then Lookup(provided, v) else FirstDefault(ds, v);
  }

  /** `applyDefaults` */
  method ApplyDefaults(definitions: seq<Definition>, provided: Variables) returns (result: Variables)
    ensures Defaulted(provided, definitions, result)
  {
    result := provided;
    assert definitions[..0] == [];
    for i := 0 to |definitions|
      invariant Defaulted(provided, definitions[..i], result)
    {
      ghost var before := result;
      var d := definitions[i];
      if Lookup(result, d.name) == Undefined && d.fallback != Undefined {
        result := result[d.name := d.fallback];
      }
      forall v: string
        ensures Lookup(result, v) ==
                if Lookup(provided, v) != Undefined then Lookup(provided, v) else FirstDefault(definitions[..i + 1], v)
      {
        FirstDefaultSnoc(definitions, i, v);
        assert v != d.name ==> Lookup(result, v) == Lookup(before, v);
      }
    }
    assert definitions[..|definitions|] == definitions;
  }

  predicate Missing(definitions: seq<Definition>, variables: Variables, k: nat)
    requires k < |definitions|
  {
    definitions[k].required && Lookup(variables, definitions[k].name) == Undefined
  }

  /** Null, false and the empty text are values; only a variable that is not defined at all is missing. */
  lemma {:induction false} MissingIff(definitions: seq<Definition>, variables: Variables, k: nat)
    requires k < |definitions|
    ensures Missing(definitions, variables, k) <==>
            && definitions[k].required
            && (definitions[k].name !in variables || variables[definitions[k].name] == Undefined)
  {
  }

  /** The first required variable without a value has this name. */
  predicate FirstMissing(definitions: seq<Definition>, variables: Variables, name: string) {
    exists k | 0 <= k < |definitions| ::
      && Missing(definitions, variables, k) && definitions[k].name == name
      && forall j | 0 <= j < k :: !Missing(definitions, variables, j)
  }

  /** `validateRequiredVariables`: the first required variable without a value. */
  method MissingVariable(definitions: seq<Definition>, variables: Variables) returns (missing: Option<string>)
    ensures missing.None? <==> forall k | 0 <= k < |definitions| :: !Missing(definitions, variables, k)
    ensures missing.Some? ==> FirstMissing(definitions, variables, missing.value)
  {
    for i := 0 to |definitions|
      invariant forall k | 0 <= k < i :: !Missing(definitions, variables, k)
    {
      var d := definitions[i];
      if d.required && Lookup(variables, d.name) == Undefined {
        assert Missing(definitions, variables, i);
        return Some(d.name);
      }
    }
    return None;
  }
}
