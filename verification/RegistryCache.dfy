/** The registry of packages/prompt/src/registry.ts with its two caches. */
module RegistryCache {
  import opened Wrappers
  import opened Strings
  import opened TemplateEval
  import opened RegistryVariables
  import opened RegistryResolution

  // ---------------------------------------------------------------------
  // Which prompts a resolution looks at
  // ---------------------------------------------------------------------

  /** The names looked up on the way down the tree. */
  function Visits(t: Tree): set<string>
    decreases t, 0
  {
    (if t.parent.Some? then {t.prompt.meta.ext} + Visits(t.parent.value) else {})
    + (if t.includes == [] then {} else set n | n in t.prompt.meta.includes)
    + VisitsAll(t.includes)
  }

  function VisitsAll(ts: seq<Tree>): set<string>
    decreases ts, 0
  {
    if ts == [] then {} else Visits(ts[0]) + VisitsAll(ts[1..])
  }

  /** The prompts under these names are the same in both. */
  predicate SameAt(db: Database, db': Database, names: set<string>) {
    forall n | n in names :: n in db && n in db' && db[n] == db'[n]
  }

  lemma {:induction false} VisitsExist(db: Database, t: Tree)
    requires Follows(db, t)
    ensures Visits(t) <= db.Keys
    decreases t, 0
  {
    if t.parent.Some? {
      VisitsExist(db, t.parent.value);
    }
    AllExist(db, Included(t.prompt, Join(OwnParts(t), '\n')), t.includes);
  }

  lemma {:induction false} AllExist(db: Database, names: seq<string>, ts: seq<Tree>)
    requires FollowAll(db, names, ts)
    ensures VisitsAll(ts) <= db.Keys && forall n | n in names :: n in db
    decreases ts, 0
  {
    if ts != [] {
      VisitsExist(db, ts[0]);
      AllExist(db, names[1..], ts[1..]);
    }
  }

  /** A tree depends only on the prompts it visits. */
  lemma {:induction false} FollowsFrame(db: Database, db': Database, t: Tree)
    requires Follows(db, t) && SameAt(db, db', Visits(t))
    ensures Follows(db', t)
    decreases t, 0
  {
    if t.parent.Some? {
      FollowsFrame(db, db', t.parent.value);
    }
    AllFrame(db, db', Included(t.prompt, Join(OwnParts(t), '\n')), t.includes);
  }

  lemma {:induction false} AllFrame(db: Database, db': Database, names: seq<string>, ts: seq<Tree>)
    requires FollowAll(db, names, ts) && SameAt(db, db', VisitsAll(ts))
    requires ts != [] ==> SameAt(db, db', set n | n in names)
    ensures FollowAll(db', names, ts)
    decreases ts, 0
  {
    if ts != [] {
      FollowsFrame(db, db', ts[0]);
      assert forall n | n in names[1..] :: n in names;
      AllFrame(db, db', names[1..], ts[1..]);
    }
  }

  // ---------------------------------------------------------------------
  // Caches
  // ---------------------------------------------------------------------

  type Cache = map<string, Resolved>

  /** Resolving a prompt from scratch. */
  function Fresh(db: Database, max: nat, name: string): Result<Resolved, Error> {
    if name in db then Resolve(db, max, db[name], []) else Err(NotFound(name))
  }

  predicate Agrees(db: Database, max: nat, cache: Cache) {
    forall name | name in cache :: Fresh(db, max, name) == Ok(cache[name])
  }

  /** The prompts after re-reading the file of one: `None` when it can no longer be parsed. */
  function Reparsed(db: Database, name: string, file: Option<Parsed>): Database {
    if name !in db then db
    else match file
      case Some(p) => db[name := p]
      case None => db - {name}
  }

  predicate DirectlyUses(r: Resolved, name: string) {
    r.meta.ext == name || name in r.meta.includes
  }

  function WithoutDependents(cache: Cache, name: string): Cache {
    map k | k in cache && !DirectlyUses(cache[k], name) :: cache[k]
  }

  /** What `invalidate(name)` leaves in the cache: it drops the prompt and its direct dependents. */
  function Surviving(cache: Cache, name: string): Cache {
    WithoutDependents(cache - {name}, name)
  }

  /** Every other cached prompt whose resolution visits `name` refers to it directly. */
  ghost predicate OneHop(db: Database, max: nat, cache: Cache, name: string) {
    forall k, t | k in cache && k != name && k in db && Shows(db, max, db[k], [], t) && name in Visits(t) ::
      cache[k].meta.ext == name || name in cache[k].meta.includes
  }

  lemma {:induction false} FreshTree(db: Database, max: nat, cache: Cache, k: string) returns (t: Tree)
    requires Agrees(db, max, cache) && k in cache
    ensures k in db && Shows(db, max, db[k], [], t) && cache[k] == Meaning(t)
  {
    t := ResolvedTree(db, max, db[k], []);
    TreeResolves(db, max, t, []);
  }

  /** A cached prompt that does not visit `name` stays right whatever becomes of that file. */
  lemma {:induction false} UnvisitedStays(
      db: Database, max: nat, cache: Cache, name: string, file: Option<Parsed>, k: string, t: Tree)
    requires Agrees(db, max, cache) && k in cache && k != name && k in db
    requires Shows(db, max, db[k], [], t) && name !in Visits(t)
    ensures Fresh(Reparsed(db, name, file), max, k) == Ok(cache[k])
  {
    var db' := Reparsed(db, name, file);
    VisitsExist(db, t);
    FollowsFrame(db, db', t);
    TreeResolves(db, max, t, []);
    TreeResolves(db', max, t, []);
  }

  /** A cached prompt that visits `name` is wrong once that file is gone. */
  lemma {:induction false} VisitedBreaks(db: Database, max: nat, name: string, k: string, t: Tree)
    requires k in db && k != name && Shows(db, max, db[k], [], t) && name in Visits(t)
    ensures Fresh(Reparsed(db, name, None), max, k).Err?
  {
    var db' := Reparsed(db, name, None);
    if Fresh(db', max, k).Ok? {
      var u := ResolvedTree(db', max, db'[k], []);
      VisitsExist(db', u);
      FollowsFrame(db', db, u);
      TreeUnique(db, t, u);
      VisitsExist(db, t);
    }
  }

  /**
   * `invalidate(name)` keeps the cache right, whatever the file holds now, if and only
   * if every cached prompt that reaches `name` refers to it in one hop.
   */
  lemma {:induction false} InvalidateIff(db: Database, max: nat, cache: Cache, name: string)
    requires Agrees(db, max, cache)
    ensures OneHop(db, max, cache, name) <==>
            forall file :: Agrees(Reparsed(db, name, file), max, Surviving(cache, name))
  {
    var survivors := Surviving(cache, name);
    if OneHop(db, max, cache, name) {
      forall file, k | k in survivors
        ensures Fresh(Reparsed(db, name, file), max, k) == Ok(survivors[k])
      {
        var t := FreshTree(db, max, cache, k);
        UnvisitedStays(db, max, cache, name, file, k, t);
      }
    } else {
      var k, t :| k in cache && k != name && k in db && Shows(db, max, db[k], [], t) && name in Visits(t)
                  && !DirectlyUses(cache[k], name);
      VisitedBreaks(db, max, name, k, t);
      assert k in survivors && !Agrees(Reparsed(db, name, None), max, survivors);
    }
  }

  /** A prompt that extends another, or none. */
  function Plain(name: string, ext: string, rawBody: string): Parsed {
    Parsed(Meta(name, ext, [], []), rawBody)
  }

  function Over(p: Parsed, parent: Option<Tree>): Tree {
    Tree(p, parent, [])
  }

  lemma {:induction false} PlainShows(db: Database, max: nat, p: Parsed, parent: Option<Tree>, chain: seq<string>)
    requires |chain| < max && p.meta.includes == [] && p.meta.name !in chain
    requires p.meta.ext == "" <==> parent.None?
    requires parent.Some? ==>
               p.meta.ext in db && Shows(db, max, db[p.meta.ext], chain + [p.meta.name], parent.value)
    ensures Shows(db, max, p, chain, Over(p, parent))
    ensures Parts(Over(p, parent)) == (if parent.Some? then Parts(parent.value) else []) + [p.rawBody]
  {
    assert FollowAll(db, [], []) && AllParts([]) == [];
  }

  /** c extends b extends a: after a changes, invalidating a leaves c cached with a's old body. */
  lemma {:induction false} TwoHopsGoStale(max: nat, before: string, after: string)
    requires max >= 3 && |before| != |after|
    ensures var a, b, c := Plain("a", "", before), Plain("b", "a", "B"), Plain("c", "b", "C");
            var db := map["a" := a, "b" := b, "c" := c];
            var cached := Fresh(db, max, "c");
            && cached.Ok? && Agrees(db, max, map["c" := cached.value])
            && !Agrees(Reparsed(db, "a", Some(Plain("a", "", after))), max, Surviving(map["c" := cached.value], "a"))
  {
    var b, c := Plain("b", "a", "B"), Plain("c", "b", "C");
    var db := map["a" := Plain("a", "", before), "b" := b, "c" := c];
    var db' := Reparsed(db, "a", Some(Plain("a", "", after)));
    ThreeResolve(db, max, before);
    ThreeResolve(db', max, after);
    var cached := Fresh(db, max, "c").value;
    assert "c" in Surviving(map["c" := cached], "a");
  }

  lemma {:induction false} ThreeResolve(db: Database, max: nat, text: string)
    requires max >= 3 && "a" in db && "b" in db && "c" in db
    requires db["a"] == Plain("a", "", text) && db["b"] == Plain("b", "a", "B") && db["c"] == Plain("c", "b", "C")
    ensures Fresh(db, max, "c").Ok? && |Fresh(db, max, "c").value.resolvedBody| == |text| + 4
    ensures !DirectlyUses(Fresh(db, max, "c").value, "a")
  {
    var a, b, c := db["a"], db["b"], db["c"];
    assert [] + ["c"] == ["c"] && ["c"] + ["b"] == ["c", "b"];
    PlainShows(db, max, a, None, ["c", "b"]);
    PlainShows(db, max, b, Some(Over(a, None)), ["c"]);
    var t := Over(c, Some(Over(b, Some(Over(a, None)))));
    PlainShows(db, max, c, Some(Over(b, Some(Over(a, None)))), []);
    TreeResolves(db, max, t, []);
    assert Parts(t) == [text, "B", "C"];
    assert [text, "B", "C"][1..] == ["B", "C"] && ["B", "C"][1..] == ["C"];
    assert Join(["B", "C"], '\n') == "B\nC";
  }

  // ---------------------------------------------------------------------
  // The registry
  // ---------------------------------------------------------------------

  /** File `k` is the last one with its name. */
  predicate LastOfName(scanned: seq<Parsed>, k: nat) {
    k < |scanned| && forall j | k < j < |scanned| :: scanned[j].meta.name != scanned[k].meta.name
  }

  lemma {:induction false} StillLast(scanned: seq<Parsed>)
    requires scanned != []
    ensures var n := |scanned| - 1;
            forall k | 0 <= k < n && LastOfName(scanned, k) ::
              && LastOfName(scanned[..n], k) && scanned[..n][k] == scanned[k]
              && scanned[k].meta.name != scanned[n].meta.name
  {
  }

  /** `parsedCache.set` for every scanned file in turn: of a name, the last file counts. */
  function ByName(scanned: seq<Parsed>): (db: Database)
    ensures KeyedByName(db)
    ensures forall p | p in scanned :: p.meta.name in db
    ensures forall k | 0 <= k < |scanned| && LastOfName(scanned, k) :: db[scanned[k].meta.name] == scanned[k]
  {
    if scanned == [] then map[]
    else
      var n := |scanned| - 1;
      StillLast(scanned);
      ByName(scanned[..n])[scanned[n].meta.name := scanned[n]]
  }

  /** Nothing else is in it. */
  lemma {:induction false} OnlyScanned(scanned: seq<Parsed>, name: string)
    requires name in ByName(scanned)
    ensures ByName(scanned)[name] in scanned
  {
    var n := |scanned| - 1;
    if name != scanned[n].meta.name {
      OnlyScanned(scanned[..n], name);
    }
  }

  datatype RenderError =
    | Unresolved(error: Error)
    | Required(variable: string, prompt: string)
    | Failed(message: string)

  class PromptRegistry {
    const max: nat
    var parsed: Database
    var resolved: Cache

    constructor (max: nat, scanned: seq<Parsed>)
      ensures this.max == max && parsed == ByName(scanned) && resolved == map[]
      ensures Agrees(parsed, max, resolved)
    {
      this.max := max;
      parsed := map[];
      resolved := map[];
      new;
      LoadAll(scanned);
    }

    /** The scanned files under their names; of several with one name the last counts. */
    method LoadAll(scanned: seq<Parsed>)
      modifies this
      ensures parsed == ByName(scanned) && resolved == map[]
      ensures forall name | name in parsed :: parsed[name] in scanned && parsed[name].meta.name == name
      ensures forall k | 0 <= k < |scanned| && LastOfName(scanned, k) ::
                scanned[k].meta.name in parsed && parsed[scanned[k].meta.name] == scanned[k]
      ensures Agrees(parsed, max, resolved)
    {
      parsed := map[];
      resolved := map[];
      for i := 0 to |scanned|
        invariant parsed == ByName(scanned[..i]) && resolved == map[]
      {
        assert scanned[..i + 1][..i] == scanned[..i];
        parsed := parsed[scanned[i].meta.name := scanned[i]];
      }
      assert scanned[..|scanned|] == scanned;
      forall name | name in parsed
        ensures parsed[name] in scanned
      {
        OnlyScanned(scanned, name);
      }
    }

    /** A cached prompt is returned as it is; any other is resolved and, if that succeeds, cached. */
    method ResolvePrompt(name: string) returns (r: Result<Resolved, Error>)
      modifies this`resolved
      ensures name in old(resolved) ==> r == Ok(old(resolved)[name]) && resolved == old(resolved)
      ensures name !in old(resolved) ==>
                && r == Fresh(parsed, max, name)
                && resolved == if r.Ok? then old(resolved)[name := r.value] else old(resolved)
      ensures old(Agrees(parsed, max, resolved)) ==>
                Agrees(parsed, max, resolved) && r == Fresh(parsed, max, name)
    {
      if name in resolved {
        return Ok(resolved[name]);
      }
      if name !in parsed {
        return Err(NotFound(name));
      }
      r := ResolveWithInheritance(parsed[name], []);
      if r.Ok? {
        resolved := resolved[name := r.value];
      }
    }

    method ResolveWithInheritance(p: Parsed, chain: seq<string>) returns (r: Result<Resolved, Error>)
      ensures r == Resolve(parsed, max, p, chain)
      decreases Left(max, chain), 0, 0
    {
      var name := p.meta.name;
      if name in chain {
        return Err(Circular(chain + [name]));
      }
      if |chain| >= max {
        return Err(TooDeep(name));
      }
      var body := p.rawBody;
      var variables := p.meta.variables;
      if p.meta.ext != "" {
        if p.meta.ext !in parsed {
          return Err(NotFound(p.meta.ext));
        }
        var parent := ResolveWithInheritance(parsed[p.meta.ext], chain + [name]);
        if parent.Err? {
          return Err(parent.error);
        }
        body := parent.value.resolvedBody + "\n" + body;
        variables := MergeVariables(parent.value.meta.variables, p.meta.variables);
      }
      assert Inherit(parsed, max, p, chain + [name]) == Ok((body, variables));
      assert p.meta.includes == [] ==> ResolveIncludes(parsed, max, body, p.meta.includes, chain + [name]) == Ok(body);
      if p.meta.includes != [] {
        var appended := ResolveIncludesOf(body, p.meta.includes, chain + [name]);
        if appended.Err? {
          return Err(appended.error);
        }
        body := appended.value;
      }
      r := Ok(Resolved(p.meta.(variables := variables), p.rawBody, body));
    }

    method ResolveIncludesOf(body: string, includes: seq<string>, chain: seq<string>)
      returns (r: Result<string, Error>)
      ensures r == ResolveIncludes(parsed, max, body, includes, chain)
      decreases Left(max, chain), 1, 0
    {
      if HasPlacement(body) {
        return Ok(body);
      }
      var result := body;
      var k := 0;
      assert includes[0..] == includes;
      while k < |includes|
        invariant 0 <= k <= |includes|
        invariant AppendIncludes(parsed, max, result, includes[k..], chain) ==
                  AppendIncludes(parsed, max, body, includes, chain)
      {
        assert includes[k..][0] == includes[k] && includes[k..][1..] == includes[k + 1..];
        if includes[k] !in parsed {
          return Err(NotFound(includes[k]));
        }
        var one := ResolveWithInheritance(parsed[includes[k]], chain);
        if one.Err? {
          return Err(one.error);
        }
        result := result + "\n" + one.value.resolvedBody;
        k := k + 1;
      }
      r := Ok(result);
    }

    /** `file` is what the prompt's file now parses to, `scanned` what all files would. */
    method Invalidate(name: string, file: Option<Parsed>, scanned: seq<Parsed>)
      modifies this
      ensures name == "" ==> parsed == ByName(scanned) && resolved == map[]
      ensures name != "" ==>
                parsed == Reparsed(old(parsed), name, file) && resolved == Surviving(old(resolved), name)
      ensures name != "" ==>
                && parsed.Keys == old(parsed).Keys - (if file.None? then {name} else {})
                && (forall k | k in parsed :: parsed[k] == if k == name then file.value else old(parsed)[k])
      ensures name != "" ==>
                && (forall k :: k in resolved <==>
                      && k in old(resolved) && k != name
                      && old(resolved)[k].meta.ext != name && name !in old(resolved)[k].meta.includes)
                && (forall k | k in resolved :: resolved[k] == old(resolved)[k])
      ensures old(Agrees(parsed, max, resolved)) && (name == "" || old(OneHop(parsed, max, resolved, name))) ==>
                Agrees(parsed, max, resolved)
    {
      ghost var db, cache := parsed, resolved;
      if name == "" {
        LoadAll(scanned);
        return;
      }
      if name in parsed {
        match file
        case Some(p) => parsed := parsed[name := p];
        case None => parsed := parsed - {name};
      }
      resolved := resolved - {name};
      DropDependents(name);
      if Agrees(db, max, cache) {
        InvalidateIff(db, max, cache, name);
      }
    }

    method DropDependents(name: string)
      modifies this`resolved
      ensures resolved == WithoutDependents(old(resolved), name)
    {
      var keys := resolved.Keys;
      while keys != {}
        invariant keys <= old(resolved).Keys
        invariant forall k | k in resolved :: k in old(resolved) && resolved[k] == old(resolved)[k]
        invariant forall k | k in old(resolved) ::
                    k in resolved <==> k in keys || !DirectlyUses(old(resolved)[k], name)
        decreases keys
      {
        var key :| key in keys;
        keys := keys - {key};
        if DirectlyUses(resolved[key], name) {
          resolved := resolved - {key};
        }
      }
    }

    /** `render`, with the partials as a function. */
    method Render(name: string, provided: Variables, partials: Partials)
      returns (r: Result<string, RenderError>, ghost variables: Variables)
      requires Agrees(parsed, max, resolved)
      modifies this`resolved
      ensures Agrees(parsed, max, resolved)
      ensures match Fresh(parsed, max, name)
              case Err(e) => r == Err(Unresolved(e))
              case Ok(prompt) =>
                && Defaulted(provided, prompt.meta.variables, variables)
                && ((exists k | 0 <= k < |prompt.meta.variables| :: Missing(prompt.meta.variables, variables, k))
                    <==> r.Err? && r.error.Required?)
                && (r.Err? && r.error.Required? ==>
                      && FirstMissing(prompt.meta.variables, variables, r.error.variable)
                      && r.error.prompt == prompt.meta.name)
                && (r.Ok? ==> TemplateEval.Render(prompt.resolvedBody, variables, partials) == Ok(r.value))
                && (r.Err? && r.error.Failed? ==>
                      TemplateEval.Render(prompt.resolvedBody, variables, partials) == Err(r.error.message))
                && (r.Err? ==> !r.error.Unresolved?)
    {
      variables := provided;
      var prompt := ResolvePrompt(name);
      if prompt.Err? {
        return Err(Unresolved(prompt.error)), provided;
      }
      var definitions := prompt.value.meta.variables;
      var vars := ApplyDefaults(definitions, provided);
      variables := vars;
      var missing := MissingVariable(definitions, vars);
      if missing.Some? {
        return Err(Required(missing.value, prompt.value.meta.name)), vars;
      }
      var text := RenderTemplate(prompt.value.resolvedBody, vars, partials);
      r := if text.Ok? then Ok(text.value) else Err(Failed(text.error));
    }
  }
}