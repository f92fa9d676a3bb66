/** The monkey-patch registry used to instrument framework functions for
    NNCF compression.

    `Patcher` remembers, per patched attribute, a stack of `(fn, wrapper)`
    entries in an insertion-ordered dict keyed by `(owner path, fn name)`.
    A patch replaces the attribute on its owner object by the wrapper bound
    to the function it wraps, and pushes one entry. A forced patch first
    drains the stack and wraps the bottom (original) function again, so
    wrappers never accumulate.

    Owner objects and callables are abstract values here: Python's
    attribute lookup, descriptor binding and `importlib` are summed up by
    the tables of a `Namespace`. */
module Patcher {
  import opened Wrappers
  import opened Strings
  import opened Dicts

  /** The objects whose attributes get patched. */
  datatype Owner =
    | Module(name: string)                  // a module, by its `__name__`
    | Class(uid: nat, moduleName: string, name: string)   // a class: its identity, `__module__` and `__name__`
    | Instance(id: nat)                     // any other object, by its `id()`

  /** A callable: an unpatched function, or what a patch installs, which is
      `wrapper` bound to `owner` and the wrapped function `fn`
      (`partial(wrapper, owner, fn)` for modules, a `partialmethod` for
      classes and instances). */
  datatype Fn = Original(id: nat) | Patched(wrapper: Fn, fn: Fn, owner: Owner)

  /** The first half of a registry key: a dotted path, or an object identity. */
  datatype OwnerPath = Path(path: string) | Id(id: nat)

  type Key = (OwnerPath, string)

  /** One registry entry: the function that was wrapped and its wrapper. */
  datatype Entry = Entry(fn: Fn, wrapper: Fn)

  type Registry = Dict<Key, seq<Entry>>

  /** What `patch` is given: a dotted string `"pkg.mod.fn"`, or the owner and
      attribute name that the other branches of `import_obj` extract from a
      function, a bound method or a partial. */
  datatype Target = Dotted(path: string) | Attribute(owner: Owner, fnName: string)

  /** The registry together with the attribute tables of the owners. */
  datatype State = State(registry: Registry, attrs: map<(Owner, string), Fn>)

  /** The attribute tables of the running program. */
  class Namespace {
    /** The module `importlib.import_module` yields for a dotted name;
        absent names fail to import. */
    var imports: map<string, Owner>
    /** `getattr(module, name)` for the classes a module defines. */
    var members: map<(Owner, string), Owner>
    /** `getattr(owner, name)` for every attribute that exists. */
    var attrs: map<(Owner, string), Fn>

    constructor (imports: map<string, Owner>, members: map<(Owner, string), Owner>, attrs: map<(Owner, string), Fn>)
      ensures this.imports == imports && this.members == members && this.attrs == attrs
    {
      this.imports := imports;
      this.members := members;
      this.attrs := attrs;
    }
  }

  /** The string branch of `import_obj`: the last dotted component is the
      function name, the components before it the owner path. */
  function ImportPath(dotted: string): (r: (string, string))
    ensures Contains(dotted, ".") ==> dotted == r.0 + "." + r.1 && !Contains(r.1, ".")
    ensures !Contains(dotted, ".") ==> r == ("", dotted)
  {
    var (owner, fnName) := SplitLast(dotted, '.');
    if LastIndexOf(dotted, '.').Some? then
      var i := LastIndexOf(dotted, '.').value;
      assert OccursAt(dotted, ".", i);
      assert dotted == dotted[..i] + "." + dotted[i + 1..];
      assert !Contains(fnName, ".") by {
        forall j | 0 <= j < |fnName| ensures fnName[j] != '.' {
          assert fnName[j] == dotted[i + 1 + j];
        }
        NoCharNotContained(fnName, '.');
      }
      (owner, fnName)
    else
      assert !Contains(dotted, ".") by {
        NoCharNotContained(dotted, '.');
      }
      (owner, fnName)
  }

  /** The string branch of `import_obj` resolving the owner path: the
      module of that name, or else (on `ModuleNotFoundError`) the attribute
      named by the last component of the module named by the others.
      `import_module("")` raises `ValueError`, which nothing catches. */
  function ImportOwner(path: string, imports: map<string, Owner>, members: map<(Owner, string), Owner>): (r: Result<Owner>)
    ensures r.Err? ==> r.error == ValueError || r.error == ModuleNotFoundError || r.error == AttributeError
    ensures path != "" && path in imports ==> r == Ok(imports[path])
    ensures r == Err(ValueError) <==> path == "" || (path !in imports && ImportPath(path).0 == "")
    ensures r == Err(ModuleNotFoundError) <==>
              path != "" && path !in imports && ImportPath(path).0 != "" && ImportPath(path).0 !in imports
    ensures r == Err(AttributeError) <==>
              path != "" && path !in imports && ImportPath(path).0 != "" && ImportPath(path).0 in imports
              && (imports[ImportPath(path).0], ImportPath(path).1) !in members
    ensures r.Ok? && path !in imports ==>
              ImportPath(path).0 in imports && r.value == members[(imports[ImportPath(path).0], ImportPath(path).1)]
  {
    if path == "" then Err(ValueError)
    else if path in imports then Ok(imports[path])
    else
      var (m, a) := ImportPath(path);
      if m == "" then Err(ValueError)
      else if m !in imports then Err(ModuleNotFoundError)
      else if (imports[m], a) !in members then Err(AttributeError)
      else Ok(members[(imports[m], a)])
  }

  /** `import_obj`: the owner object and the attribute name to patch. A
      dotted string without a dot has the empty owner path, which raises
      `ValueError`. */
  function ImportObj(target: Target, imports: map<string, Owner>, members: map<(Owner, string), Owner>): (r: Result<(Owner, string)>)
    ensures target.Attribute? ==> r == Ok((target.owner, target.fnName))
    ensures target.Dotted? ==>
              var owner := ImportOwner(ImportPath(target.path).0, imports, members);
              (r.Ok? <==> owner.Ok?)
              && (r.Ok? ==> r.value == (owner.value, ImportPath(target.path).1))
              && (r.Err? ==> r.error == owner.error)
    ensures target.Dotted? && !Contains(target.path, ".") ==> r == Err(ValueError)
  {
    match target
    case Attribute(owner, fnName) => Ok((owner, fnName))
    case Dotted(path) =>
      var (ownerPath, fnName) := ImportPath(path);
      match ImportOwner(ownerPath, imports, members)
      case Ok(owner) => Ok((owner, fnName))
      case Err(e) => Err(e)
  }

  /** The registry key of an attribute: the module name for module functions,
      `module.Class` for class functions, the identity for instances. Only
      instances are keyed by identity, and an instance's key gives it back. */
  function KeyOf(owner: Owner, fnName: string): (r: Key)
    ensures r.1 == fnName
    ensures r.0.Id? <==> owner.Instance?
    ensures r.0.Id? ==> owner == Instance(r.0.id)
  {
    match owner
    case Module(name) => (Path(name), fnName)
    case Class(_, moduleName, name) => (Path(moduleName + "." + name), fnName)
    case Instance(id) => (Id(id), fnName)
  }

  /** A class is keyed by `__module__` and `__name__` alone: two distinct
      classes with the same names (nested classes of two different outer
      classes, say) share every key, so their stacks mix in the registry. */
  lemma ClassKeysCollide(a: Owner, b: Owner, fnName: string)
    requires a.Class? && b.Class? && a.moduleName == b.moduleName && a.name == b.name
    ensures KeyOf(a, fnName) == KeyOf(b, fnName)
  {
  }

  /** The key of a dotted target that names a function of module `m` is
      `(m, fn)`: the string before the last dot and the one after it. */
  lemma DottedModuleKey(m: string, fnName: string, imports: map<string, Owner>, members: map<(Owner, string), Owner>)
    requires m != "" && !Contains(fnName, ".") && m in imports && imports[m] == Module(m)
    ensures ImportObj(Dotted(m + "." + fnName), imports, members).Ok?
    ensures var (owner, name) := ImportObj(Dotted(m + "." + fnName), imports, members).value;
            KeyOf(owner, name) == (Path(m), fnName)
  {
    var dotted := m + "." + fnName;
    assert OccursAt(dotted, ".", |m|);
    var (o, f) := ImportPath(dotted);
    ImportPathUnique(o, f, m, fnName);
  }

  /** The key of a dotted target `m.C.fn` that names a function of class
      `C` of module `m` (which does not import as a module itself, so the
      fallback looks `C` up in `m`) is the key the class's own function
      object gets: `(m.C, fn)`. */
  lemma DottedClassKey(m: string, c: string, fnName: string, imports: map<string, Owner>, members: map<(Owner, string), Owner>)
    requires m != "" && !Contains(c, ".") && !Contains(fnName, ".")
    requires m in imports && m + "." + c !in imports && (imports[m], c) in members
    requires var cls := members[(imports[m], c)]; cls.Class? && cls.moduleName == m && cls.name == c
    ensures ImportObj(Dotted(m + "." + c + "." + fnName), imports, members) == Ok((members[(imports[m], c)], fnName))
    ensures KeyOf(members[(imports[m], c)], fnName) == (Path(m + "." + c), fnName)
  {
    var ownerPath := m + "." + c;
    var dotted := ownerPath + "." + fnName;
    assert OccursAt(dotted, ".", |ownerPath|);
    var (o, f) := ImportPath(dotted);
    ImportPathUnique(o, f, ownerPath, fnName);
    assert OccursAt(ownerPath, ".", |m|);
    var (o2, f2) := ImportPath(ownerPath);
    ImportPathUnique(o2, f2, m, c);
  }

  /** A string splits at its last dot in one way only. */
  lemma ImportPathUnique(o: string, f: string, m: string, g: string)
    requires o + "." + f == m + "." + g
    requires !Contains(f, ".") && !Contains(g, ".")
    ensures o == m && f == g
  {
    var s := o + "." + f;
    if |f| < |g| {
      assert OccursAt(g, ".", |g| - |f| - 1) by {
        assert s[|o|] == '.';
        assert g[|g| - |f| - 1] == s[|m| + 1 + |g| - |f| - 1];
      }
    } else if |g| < |f| {
      assert OccursAt(f, ".", |f| - |g| - 1) by {
        assert s[|m|] == '.';
        assert f[|f| - |g| - 1] == s[|o| + 1 + |f| - |g| - 1];
      }
    } else {
      assert o == s[..|o|] == m;
      assert f == s[|o| + 1..] == g;
    }
  }

  /** The bottom (original) function of a stack, if it has one. */
  function Bottom(stack: seq<Entry>): Option<Fn>
  {
    if stack == [] then None else Some(stack[0].fn)
  }

  /** The stack of `key`, empty when the key was never patched. */
  function StackOf(reg: Registry, key: Key): seq<Entry>
  {
    if key in reg.vals then reg.vals[key] else []
  }

  /** `_initialize` on values: the registry afterwards and the function returned. */
  function InitializeSpec(reg: Registry, key: Key, force: bool): (r: (Registry, Option<Fn>))
    requires reg.Valid()
    ensures r.0.Valid() && key in r.0.vals
    ensures r.0.keys == if key in reg.vals then reg.keys else reg.keys + [key]
    ensures forall k :: k != key && k in reg.vals ==> k in r.0.vals && r.0.vals[k] == reg.vals[k]
    ensures force ==> r.0.vals[key] == [] && r.1 == Bottom(StackOf(reg, key))
    ensures !force ==> r.0.vals[key] == StackOf(reg, key) && r.1 == None
  {
    var reg1 := if key in reg.vals then reg else reg.Set(key, []);
    if force then (reg1.Set(key, []), Bottom(reg1.vals[key])) else (reg1, None)
  }

  /** One patch of the existing attribute `fnName` of `owner`, on values.
      The key's stack gains one entry and the attribute is replaced by the
      wrapper bound to the entry's function; a forced patch first empties
      the stack and wraps its bottom function instead of the current one.
      Every other key keeps its stack and its place in the order. */
  function PatchSpec(s: State, owner: Owner, fnName: string, wrapper: Fn, force: bool): (r: State)
    requires s.registry.Valid() && (owner, fnName) in s.attrs
    ensures r.registry.Valid()
    ensures var key := KeyOf(owner, fnName);
            var stack := StackOf(s.registry, key);
            var wrapped := if force && stack != [] then stack[0].fn else s.attrs[(owner, fnName)];
            && r.registry.keys == (if key in s.registry.vals then s.registry.keys else s.registry.keys + [key])
            && r.registry.vals.Keys == s.registry.vals.Keys + {key}
            && (forall k :: k != key && k in s.registry.vals ==> r.registry.vals[k] == s.registry.vals[k])
            && r.registry.vals[key] == (if force then [] else stack) + [Entry(wrapped, wrapper)]
            && r.attrs == s.attrs[(owner, fnName) := Patched(wrapper, wrapped, owner)]
  {
    var key := KeyOf(owner, fnName);
    var (reg1, fn_) := InitializeSpec(s.registry, key, force);
    var fn := if fn_.Some? then fn_.value else s.attrs[(owner, fnName)];
    State(reg1.Set(key, reg1.vals[key] + [Entry(fn, wrapper)]),
          s.attrs[(owner, fnName) := Patched(wrapper, fn, owner)])
  }

  /** Several patches of the same attribute, one after another; each step is
      a wrapper and its `force` flag. */
  function PatchAll(s: State, owner: Owner, fnName: string, steps: seq<(Fn, bool)>): (r: State)
    requires s.registry.Valid() && (owner, fnName) in s.attrs
    ensures r.registry.Valid() && (owner, fnName) in r.attrs
    decreases |steps|
  {
    if steps == [] then s
    else PatchAll(PatchSpec(s, owner, fnName, steps[0].0, steps[0].1), owner, fnName, steps[1..])
  }

  /** Force-patching twice is force-patching once with the later wrapper. */
  lemma ForcePatchTwice(s: State, owner: Owner, fnName: string, w1: Fn, w2: Fn)
    requires s.registry.Valid() && (owner, fnName) in s.attrs
    ensures PatchSpec(PatchSpec(s, owner, fnName, w1, true), owner, fnName, w2, true)
            == PatchSpec(s, owner, fnName, w2, true)
  {
    ForcedPatch(s, owner, fnName, w1);
    ForcedPatch(PatchSpec(s, owner, fnName, w1, true), owner, fnName, w2);
    ForcedPatch(s, owner, fnName, w2);
    ForcedTwice(s, owner, fnName, w1, w2);
  }

  /** Updating a key twice keeps the second value only. */
  lemma Overwrite<K, V>(m: map<K, V>, k: K, a: V, b: V)
    ensures m[k := a][k := b] == m[k := b]
  {
  }

  /** The state a forced patch leaves: the key (appended if new) holds the
      one entry wrapping the bottom function, or the current attribute when
      the stack is empty, and the attribute is the wrapper around it. */
  function ForcedState(s: State, owner: Owner, fnName: string, w: Fn): (r: State)
    requires s.registry.Valid() && (owner, fnName) in s.attrs
    ensures r.registry.Valid() && (owner, fnName) in r.attrs
  {
    var key := KeyOf(owner, fnName);
    var stack := StackOf(s.registry, key);
    var wrapped := if stack != [] then stack[0].fn else s.attrs[(owner, fnName)];
    State(Dict(if key in s.registry.vals then s.registry.keys else s.registry.keys + [key],
               s.registry.vals[key := [Entry(wrapped, w)]]),
          s.attrs[(owner, fnName) := Patched(w, wrapped, owner)])
  }

  /** A forced patch in closed form. */
  lemma ForcedPatch(s: State, owner: Owner, fnName: string, w: Fn)
    requires s.registry.Valid() && (owner, fnName) in s.attrs
    ensures PatchSpec(s, owner, fnName, w, true) == ForcedState(s, owner, fnName, w)
  {
    var key := KeyOf(owner, fnName);
    var stack := StackOf(s.registry, key);
    var wrapped := if stack != [] then stack[0].fn else s.attrs[(owner, fnName)];
    var e := [Entry(wrapped, w)];
    var (reg1, fn_) := InitializeSpec(s.registry, key, true);
    assert reg1.vals[key] == [] && fn_ == Bottom(stack);
    assert reg1.vals[key] + [Entry(wrapped, w)] == e;
    if key in s.registry.vals {
      assert reg1.vals == s.registry.vals[key := []];
      Overwrite(s.registry.vals, key, [], e);
    } else {
      assert reg1.vals == s.registry.vals[key := []][key := []];
      Overwrite(s.registry.vals, key, [], []);
      Overwrite(s.registry.vals, key, [], e);
    }
  }

  /** A forced patch after a forced patch wraps the same bottom function. */
  lemma ForcedTwice(s: State, owner: Owner, fnName: string, w1: Fn, w2: Fn)
    requires s.registry.Valid() && (owner, fnName) in s.attrs
    ensures ForcedState(ForcedState(s, owner, fnName, w1), owner, fnName, w2) == ForcedState(s, owner, fnName, w2)
  {
    var key := KeyOf(owner, fnName);
    var stack := StackOf(s.registry, key);
    var wrapped := if stack != [] then stack[0].fn else s.attrs[(owner, fnName)];
    var t := ForcedState(s, owner, fnName, w1);
    assert StackOf(t.registry, key) == [Entry(wrapped, w1)];
    Overwrite(s.registry.vals, key, [Entry(wrapped, w1)], [Entry(wrapped, w2)]);
    Overwrite(s.attrs, (owner, fnName), Patched(w1, wrapped, owner), Patched(w2, wrapped, owner));
  }

  /** However many forced patches are applied, the result is that of the
      last one alone: wrappers do not stack. */
  lemma ForcePatchesDoNotStack(s: State, owner: Owner, fnName: string, steps: seq<(Fn, bool)>)
    requires s.registry.Valid() && (owner, fnName) in s.attrs
    requires steps != [] && forall i :: 0 <= i < |steps| ==> steps[i].1
    ensures PatchAll(s, owner, fnName, steps) == PatchSpec(s, owner, fnName, steps[|steps| - 1].0, true)
  {
    ForcedRun(s, owner, fnName, steps);
    ForcedPatch(s, owner, fnName, steps[|steps| - 1].0);
  }

  lemma {:induction false} ForcedRun(s: State, owner: Owner, fnName: string, steps: seq<(Fn, bool)>)
    requires s.registry.Valid() && (owner, fnName) in s.attrs
    requires steps != [] && forall i :: 0 <= i < |steps| ==> steps[i].1
    ensures PatchAll(s, owner, fnName, steps) == ForcedState(s, owner, fnName, steps[|steps| - 1].0)
    decreases |steps|
  {
    if |steps| == 1 {
      ForcedOne(s, owner, fnName, steps);
    } else {
      var w := steps[0].0;
      var rest := steps[1..];
      ForcedTail(steps);
      PatchAllCons(s, owner, fnName, steps);
      ForcedPatch(s, owner, fnName, w);
      ForcedRun(ForcedState(s, owner, fnName, w), owner, fnName, rest);
      ForcedTwice(s, owner, fnName, w, steps[|steps| - 1].0);
    }
  }

  lemma ForcedOne(s: State, owner: Owner, fnName: string, steps: seq<(Fn, bool)>)
    requires s.registry.Valid() && (owner, fnName) in s.attrs
    requires |steps| == 1 && steps[0].1
    ensures PatchAll(s, owner, fnName, steps) == ForcedState(s, owner, fnName, steps[0].0)
  {
    PatchAllCons(s, owner, fnName, steps);
    ForcedPatch(s, owner, fnName, steps[0].0);
  }

  lemma ForcedTail(steps: seq<(Fn, bool)>)
    requires |steps| > 1 && forall i :: 0 <= i < |steps| ==> steps[i].1
    ensures steps[0].1 && steps[1..] != [] && forall i :: 0 <= i < |steps[1..]| ==> steps[1..][i].1
    ensures steps[1..][|steps[1..]| - 1] == steps[|steps| - 1]
  {
  }

  /** Applying a sequence of patches applies the first, then the rest. */
  lemma PatchAllCons(s: State, owner: Owner, fnName: string, steps: seq<(Fn, bool)>)
    requires s.registry.Valid() && (owner, fnName) in s.attrs && steps != []
    ensures PatchAll(s, owner, fnName, steps)
            == PatchAll(PatchSpec(s, owner, fnName, steps[0].0, steps[0].1), owner, fnName, steps[1..])
  {
  }

  /** The attribute after wrapping `fn` with each of `wrappers` in turn. */
  function Nest(fn: Fn, wrappers: seq<Fn>, owner: Owner): Fn
    decreases |wrappers|
  {
    if wrappers == [] then fn
    else Nest(Patched(wrappers[0], fn, owner), wrappers[1..], owner)
  }

  /** The stack of the attribute records the wrappers `done` applied without
      force to `orig`, bottom first: entry `i` wraps the attribute as the
      first `i` wrappers left it, and the attribute nests all of them. */
  ghost predicate Stacked(s: State, owner: Owner, fnName: string, orig: Fn, done: seq<Fn>)
  {
    var stack := StackOf(s.registry, KeyOf(owner, fnName));
    && (owner, fnName) in s.attrs
    && s.attrs[(owner, fnName)] == Nest(orig, done, owner)
    && |stack| == |done|
    && forall i :: 0 <= i < |done| ==> stack[i] == Entry(Nest(orig, done[..i], owner), done[i])
  }

  /** One unforced patch pushes the next layer. */
  lemma UnforcedStep(s: State, owner: Owner, fnName: string, orig: Fn, done: seq<Fn>, w: Fn)
    requires s.registry.Valid() && Stacked(s, owner, fnName, orig, done)
    ensures Stacked(PatchSpec(s, owner, fnName, w, false), owner, fnName, orig, done + [w])
  {
    var key := KeyOf(owner, fnName);
    var s1 := PatchSpec(s, owner, fnName, w, false);
    var done1 := done + [w];
    NestSnoc(orig, done, w, owner);
    forall i | 0 <= i < |done1|
      ensures StackOf(s1.registry, key)[i] == Entry(Nest(orig, done1[..i], owner), done1[i])
    {
      if i < |done| {
        assert done1[..i] == done[..i];
      } else {
        assert done1[..i] == done;
      }
    }
  }

  /** Unforced patches stack up: starting from a never-patched attribute
      (`done == []`), the stack holds one entry per patch, each wrapping the
      attribute as the previous patches left it, and the attribute is the
      nest of all the wrappers around the original function. */
  lemma {:induction false} UnforcedPatchesStack(s: State, owner: Owner, fnName: string,
                                                 orig: Fn, done: seq<Fn>, todo: seq<Fn>)
    requires s.registry.Valid() && Stacked(s, owner, fnName, orig, done)
    ensures Stacked(PatchAll(s, owner, fnName, Unforced(todo)), owner, fnName, orig, done + todo)
    decreases |todo|
  {
    if todo == [] {
      assert done + todo == done;
    } else {
      var s1 := PatchSpec(s, owner, fnName, todo[0], false);
      UnforcedTail(done, todo);
      PatchAllCons(s, owner, fnName, Unforced(todo));
      UnforcedStep(s, owner, fnName, orig, done, todo[0]);
      UnforcedPatchesStack(s1, owner, fnName, orig, done + [todo[0]], todo[1..]);
    }
  }

  lemma UnforcedTail(done: seq<Fn>, todo: seq<Fn>)
    requires todo != []
    ensures Unforced(todo) != [] && Unforced(todo)[0] == (todo[0], false)
    ensures Unforced(todo)[1..] == Unforced(todo[1..])
    ensures done + [todo[0]] + todo[1..] == done + todo
  {
    assert Unforced(todo)[1..] == Unforced(todo[1..]);
    assert done + [todo[0]] + todo[1..] == done + todo;
  }

  /** Unforced patches of a never-patched attribute with wrappers `ws`: one
      stack entry per wrapper, the bottom one holding the original function,
      and the attribute wrapped by all of them, the last outermost. */
  lemma UnforcedPatchesFromFresh(s: State, owner: Owner, fnName: string, ws: seq<Fn>)
    requires s.registry.Valid() && (owner, fnName) in s.attrs
    requires KeyOf(owner, fnName) !in s.registry.vals
    ensures Stacked(PatchAll(s, owner, fnName, Unforced(ws)), owner, fnName, s.attrs[(owner, fnName)], ws)
  {
    UnforcedPatchesStack(s, owner, fnName, s.attrs[(owner, fnName)], [], ws);
    assert [] + ws == ws;
  }

  /** The steps of unforced patches with the given wrappers. */
  function Unforced(wrappers: seq<Fn>): (r: seq<(Fn, bool)>)
    ensures |r| == |wrappers|
    ensures forall i :: 0 <= i < |r| ==> r[i] == (wrappers[i], false)
  {
    seq(|wrappers|, i requires 0 <= i < |wrappers| => (wrappers[i], false))
  }

  lemma {:induction false} NestSnoc(fn: Fn, ws: seq<Fn>, w: Fn, owner: Owner)
    ensures Nest(fn, ws + [w], owner) == Patched(w, Nest(fn, ws, owner), owner)
    decreases |ws|
  {
    if ws != [] {
      assert (ws + [w])[1..] == ws[1..] + [w];
      NestSnoc(Patched(ws[0], fn, owner), ws[1..], w, owner);
    }
  }

  /** Whatever patches (forced or not) an attribute went through since it was
      first patched, the bottom of its stack is the function it had before
      that first patch, so a forced patch wraps exactly that original. */
  lemma {:induction false} ForcePatchWrapsOriginal(s: State, owner: Owner, fnName: string,
                                                    steps: seq<(Fn, bool)>, wrapper: Fn)
    requires s.registry.Valid() && (owner, fnName) in s.attrs
    requires KeyOf(owner, fnName) !in s.registry.vals
    ensures var r := PatchSpec(PatchAll(s, owner, fnName, steps), owner, fnName, wrapper, true);
            && r.attrs[(owner, fnName)] == Patched(wrapper, s.attrs[(owner, fnName)], owner)
            && r.registry.vals[KeyOf(owner, fnName)] == [Entry(s.attrs[(owner, fnName)], wrapper)]
  {
    if steps != [] {
      var s1 := PatchSpec(s, owner, fnName, steps[0].0, steps[0].1);
      BottomPreserved(s1, owner, fnName, steps[1..], s.attrs[(owner, fnName)]);
    }
  }

  /** Once a key's stack is non-empty with bottom function `orig`, further
      patches of that attribute keep it so. */
  lemma {:induction false} BottomPreserved(s: State, owner: Owner, fnName: string,
                                           steps: seq<(Fn, bool)>, orig: Fn)
    requires s.registry.Valid() && (owner, fnName) in s.attrs
    requires Bottom(StackOf(s.registry, KeyOf(owner, fnName))) == Some(orig)
    ensures Bottom(StackOf(PatchAll(s, owner, fnName, steps).registry, KeyOf(owner, fnName))) == Some(orig)
    decreases |steps|
  {
    if steps != [] {
      BottomPreserved(PatchSpec(s, owner, fnName, steps[0].0, steps[0].1), owner, fnName, steps[1..], orig);
    }
  }

  class Patcher {
    /** `self._patched`: the ordered registry of patch stacks. */
    var patched: Registry

    ghost predicate Valid()
      reads this
    {
      patched.Valid()
    }

    constructor ()
      ensures Valid() && patched == Empty()
    {
      patched := Empty();
    }

    /** `_initialize`: registers an unseen key with an empty stack; when
        forced, pops the whole stack and returns the function of the last
        entry popped, which is the bottom one. */
    method Initialize(key: Key, force: bool) returns (fn: Option<Fn>)
      requires Valid()
      modifies this
      ensures Valid()
      ensures (patched, fn) == InitializeSpec(old(patched), key, force)
    {
      fn := None;
      if key !in patched.vals {
        patched := patched.Set(key, []);
      }
      if force {
        ghost var start := patched;
        ghost var full := patched.vals[key];
        ghost var n := |full|;
        assert full[..n] == full;
        while |patched.vals[key]| > 0
          invariant 0 <= n <= |full|
          invariant patched.keys == start.keys && patched.vals == start.vals[key := full[..n]]
          invariant fn == if n == |full| then None else Some(full[n].fn)
          decreases |patched.vals[key]|
        {
          var stack := patched.vals[key];
          var top := stack[|stack| - 1];
          assert stack[..n - 1] == full[..n - 1];
          patched := patched.Set(key, stack[..|stack| - 1]);
          Overwrite(start.vals, key, full[..n], full[..n - 1]);
          fn := Some(top.fn);
          n := n - 1;
        }
      }
    }

    /** `_patch_module_fn`: key `(module name, fn name)`; installs
        `partial(wrapper, module, fn)`. */
    method PatchModuleFn(ns: Namespace, owner: Owner, fnName: string, fn: Fn, wrapper: Fn, force: bool)
      requires Valid() && owner.Module?
      requires (owner, fnName) in ns.attrs && ns.attrs[(owner, fnName)] == fn
      modifies this, ns`attrs
      ensures Valid()
      ensures State(patched, ns.attrs)
              == PatchSpec(State(old(patched), old(ns.attrs)), owner, fnName, wrapper, force)
    {
      var key := (Path(owner.name), fnName);
      var fn_ := Initialize(key, force);
      var wrapped := if fn_.Some? then fn_.value else fn;
      ns.attrs := ns.attrs[(owner, fnName) := Patched(wrapper, wrapped, owner)];
      patched := patched.Set(key, patched.vals[key] + [Entry(wrapped, wrapper)]);
    }

    /** `_patch_class_fn`: key `(module + "." + class name, fn name)`;
        installs a `partialmethod` that calls `wrapper` with `fn`. */
    method PatchClassFn(ns: Namespace, owner: Owner, fnName: string, fn: Fn, wrapper: Fn, force: bool)
      requires Valid() && owner.Class?
      requires (owner, fnName) in ns.attrs && ns.attrs[(owner, fnName)] == fn
      modifies this, ns`attrs
      ensures Valid()
      ensures State(patched, ns.attrs)
              == PatchSpec(State(old(patched), old(ns.attrs)), owner, fnName, wrapper, force)
    {
      var key := (Path(owner.moduleName + "." + owner.name), fnName);
      var fn_ := Initialize(key, force);
      var wrapped := if fn_.Some? then fn_.value else fn;
      ns.attrs := ns.attrs[(owner, fnName) := Patched(wrapper, wrapped, owner)];
      patched := patched.Set(key, patched.vals[key] + [Entry(wrapped, wrapper)]);
    }

    /** `_patch_instance_fn`: key `(id(obj), fn name)`; installs
        `partialmethod(wrapper, fn)` bound to the instance. */
    method PatchInstanceFn(ns: Namespace, owner: Owner, fnName: string, fn: Fn, wrapper: Fn, force: bool)
      requires Valid() && owner.Instance?
      requires (owner, fnName) in ns.attrs && ns.attrs[(owner, fnName)] == fn
      modifies this, ns`attrs
      ensures Valid()
      ensures State(patched, ns.attrs)
              == PatchSpec(State(old(patched), old(ns.attrs)), owner, fnName, wrapper, force)
    {
      var key := (Id(owner.id), fnName);
      var fn_ := Initialize(key, force);
      var wrapped := if fn_.Some? then fn_.value else fn;
      ns.attrs := ns.attrs[(owner, fnName) := Patched(wrapper, wrapped, owner)];
      patched := patched.Set(key, patched.vals[key] + [Entry(wrapped, wrapper)]);
    }

    /** `patch`: resolves the target, returns without any change when the
        attribute does not exist, and otherwise patches it according to the
        kind of its owner. A dotted target whose owner cannot be imported
        raises. */
    method Patch(ns: Namespace, target: Target, wrapper: Fn, force: bool) returns (r: Outcome)
      requires Valid()
      modifies this, ns`attrs
      ensures Valid()
      ensures match ImportObj(target, old(ns.imports), old(ns.members))
              case Err(e) =>
                r == Fail(e) && patched == old(patched) && ns.attrs == old(ns.attrs)
              case Ok((owner, fnName)) =>
                r == Pass
                && if (owner, fnName) in old(ns.attrs)
                   then State(patched, ns.attrs)
                        == PatchSpec(State(old(patched), old(ns.attrs)), owner, fnName, wrapper, force)
                   else patched == old(patched) && ns.attrs == old(ns.attrs)
    {
      var resolved := ImportObj(target, ns.imports, ns.members);
      if resolved.Err? {
        return Fail(resolved.error);
      }
      var (owner, fnName) := resolved.value;
      r := Pass;
      if (owner, fnName) !in ns.attrs {
        return;
      }
      var fn := ns.attrs[(owner, fnName)];
      match owner
      case Module(_) => PatchModuleFn(ns, owner, fnName, fn, wrapper, force);
      case Class(_, _, _) => PatchClassFn(ns, owner, fnName, fn, wrapper, force);
      case Instance(_) => PatchInstanceFn(ns, owner, fnName, fn, wrapper, force);
    }
  }
}
