/** `InstrumentationClassTransformer.transform`: the per-class decision of a
    class-file transformer — null check, protected-package pass-through,
    one-time setup, full replacement, writer lookup by class name, writers
    applied in registration order, re-serialization and optional export.
    ASM's class reader and writer, the resource loader, the registered
    writers and the subclass's `makeTransformers` are abstract functions. */
module Transformer {
  import opened Opcodes
  import opened Wrappers

  type Byte = b: int | 0 <= b < 256
  type Bytes = seq<Byte>

  /** ASM's `ClassNode`, the parsed tree the writers edit; opaque here. */
  datatype ClassTree = ClassTree(token: nat)

  /** A registered `AsmWriter`: the (dotted) name of the class it targets,
      and what its `transform(classNode)` does to the tree. */
  datatype AsmWriter = AsmWriter(className: string, transform: ClassTree -> ClassTree)

  /** `AsmHelper.classReplacers` (class name to resource path) and
      `AsmHelper.asmWriters` (in registration order). */
  datatype Registry = Registry(classReplacers: map<string, string>, asmWriters: seq<AsmWriter>)

  /** What `makeTransformers()` leaves behind: the registrations, the
      protected `exportTransformed` switch (which a subclass may set there),
      and whether it threw. */
  datatype SetupOutcome = SetupOutcome(registry: Registry, exportTransformed: bool, threw: bool)

  /** `classNode.accept(classWriter)` followed by `classWriter.toByteArray()`:
      whether the accept threw part-way, and the bytes the writer holds. */
  datatype Serialized = Serialized(faulted: bool, bytes: Bytes)

  /** Everything `transform` relies on that is not its own logic. */
  datatype Environment = Environment(
    makeTransformers: (Registry, bool) -> SetupOutcome,
    loadClassResource: string -> Bytes,
    parse: Bytes -> ClassTree,
    serialize: ClassTree -> Serialized,
    exportDir: string,
    separator: char)

  // ---------------------------------------------------------------------
  // Names

  /** `String.replace` of one character by another. */
  function Replace(s: string, from: char, to: char): (r: string)
    ensures |r| == |s|
    ensures forall i :: 0 <= i < |s| ==> r[i] == (if s[i] == from then to else s[i])
  {
    if s == [] then []
    else Replace(s[..|s| - 1], from, to) + [if s[|s| - 1] == from then to else s[|s| - 1]]
  }

  /** Replacing `from` by `to` is undone by replacing `to` by `from` when
      `to` did not occur before. */
  lemma {:induction false} ReplaceRoundTrip(s: string, from: char, to: char)
    requires to !in s
    ensures Replace(Replace(s, from, to), to, from) == s
  {
    var r := Replace(Replace(s, from, to), to, from);
    assert |r| == |s|;
    forall i | 0 <= i < |s|
      ensures r[i] == s[i]
    {
      assert s[i] != to;
    }
  }

  /** `"kotlin.".replace(".", "/")` */
  const KotlinPkg: string := Replace("kotlin.", '.', '/')
  /** `"dev.falsehonesty.asmhelper.".replace(".", "/")` */
  const Pkg: string := Replace("dev.falsehonesty.asmhelper.", '.', '/')

  lemma {:induction false} PackagePrefixes()
    ensures KotlinPkg == "kotlin/"
    ensures Pkg == "dev/falsehonesty/asmhelper/"
  {
    var k := Replace("kotlin.", '.', '/');
    assert |k| == 7 && k[6] == '/';
    assert forall i :: 0 <= i < 6 ==> k[i] == "kotlin/"[i];
    var p := Replace("dev.falsehonesty.asmhelper.", '.', '/');
    assert |p| == 27;
    assert forall i :: 0 <= i < 27 ==> p[i] == "dev/falsehonesty/asmhelper/"[i];
  }

  /** The classes `transform` never touches: Kotlin's runtime, this library
      and the transformer class itself (and anything under those names). */
  predicate IsProtected(name: string, myClassName: string) {
    KotlinPkg <= name || Pkg <= name || myClassName <= name
  }

  /** A writer targets `name` when its dotted class name, with every `.`
      read as `/`, is `name`. */
  predicate Targets(w: AsmWriter, name: string) {
    Replace(w.className, '.', '/') == name
  }

  /** `asmWriters.filter { ... }`: the writers for `name`, in registration order. */
  function MatchingWriters(ws: seq<AsmWriter>, name: string): seq<AsmWriter> {
    if ws == [] then []
    else
      var rest := MatchingWriters(ws[..|ws| - 1], name);
      if Targets(ws[|ws| - 1], name) then rest + [ws[|ws| - 1]] else rest
  }

  /** A writer is kept exactly when it is registered and targets `name`. */
  lemma {:induction false} MatchingWritersMembers(ws: seq<AsmWriter>, name: string, w: AsmWriter)
    ensures w in MatchingWriters(ws, name) <==> w in ws && Targets(w, name)
    decreases |ws|
  {
    if ws != [] {
      var init := ws[..|ws| - 1];
      assert ws == init + [ws[|ws| - 1]];
      MatchingWritersMembers(init, name, w);
    }
  }

  /** Filtering a registration list that grows keeps the earlier matches,
      in the same order, in front. */
  lemma {:induction false} MatchingWritersAppend(ws: seq<AsmWriter>, more: seq<AsmWriter>, name: string)
    ensures MatchingWriters(ws + more, name) == MatchingWriters(ws, name) + MatchingWriters(more, name)
    decreases |more|
  {
    if more == [] {
      assert ws + more == ws;
    } else {
      var k := |more| - 1;
      var all := ws + more;
      assert all[..|all| - 1] == ws + more[..k];
      var last := if Targets(more[k], name) then [more[k]] else [];
      assert MatchingWriters(all, name) == MatchingWriters(ws + more[..k], name) + last;
      assert MatchingWriters(more, name) == MatchingWriters(more[..k], name) + last;
      MatchingWritersAppend(ws, more[..k], name);
    }
  }

  /** `writers.forEach { it.transform(classNode) }` on one shared tree. */
  function ApplyAll(ws: seq<AsmWriter>, t: ClassTree): ClassTree {
    if ws == [] then t else ws[|ws| - 1].transform(ApplyAll(ws[..|ws| - 1], t))
  }

  /** Writers run in registration order, each on the result of the ones
      before it. */
  lemma {:induction false} ApplyAllAppend(first: seq<AsmWriter>, later: seq<AsmWriter>, t: ClassTree)
    ensures ApplyAll(first + later, t) == ApplyAll(later, ApplyAll(first, t))
    decreases |later|
  {
    if later == [] {
      assert first + later == first;
    } else {
      var k := |later| - 1;
      assert (first + later)[..|first + later| - 1] == first + later[..k];
      assert (first + later)[|first + later| - 1] == later[k];
      ApplyAllAppend(first, later[..k], t);
    }
  }

  /** `File(exportDir, className.replace('/', separator) + ".class")`. */
  function ExportPath(dir: string, separator: char, className: string): (path: string)
    ensures |path| == |dir| + 1 + |className| + 6
    ensures path[..|dir| + 1] == dir + [separator]
    ensures path[|path| - 6..] == ".class"
  {
    dir + [separator] + Replace(className, '/', separator) + ".class"
  }

  /** Distinct classes are exported to distinct files: with `/` as the
      separator the name is kept as it is, and any other separator must not
      occur in class names. */
  lemma {:induction false} ExportPathInjective(dir: string, separator: char, c1: string, c2: string)
    requires separator == '/' || (separator !in c1 && separator !in c2)
    requires ExportPath(dir, separator, c1) == ExportPath(dir, separator, c2)
    ensures c1 == c2
  {
    var p := ExportPath(dir, separator, c1);
    var n := |dir| + 1;
    assert |c1| == |c2|;
    assert Replace(c1, '/', separator) == p[n..|p| - 6] == Replace(c2, '/', separator);
    if separator == '/' {
      assert Replace(c1, '/', '/') == c1;
      assert Replace(c2, '/', '/') == c2;
    } else {
      ReplaceRoundTrip(c1, '/', separator);
      ReplaceRoundTrip(c2, '/', separator);
    }
  }

  // ---------------------------------------------------------------------
  // The decision

  /** The state `transform` reads and updates across calls: the setup flag,
      the registrations, and the protected export switch. */
  datatype State = State(calledSetup: bool, registry: Registry, exportTransformed: bool)

  /** One call's outcome: the next state, the bytes returned (None: null)
      and the file exported, if any. */
  datatype Outcome = Outcome(state: State, result: Option<Bytes>, exportFile: Option<(string, Bytes)>)

  /** The state after the setup step of an eligible call: `makeTransformers`
      runs if it has not yet, and the flag is set whether or not it threw. */
  function AfterSetup(env: Environment, s: State): (t: State)
    ensures t.calledSetup
    ensures s.calledSetup ==> t == s
    ensures !s.calledSetup ==>
      var o := env.makeTransformers(s.registry, s.exportTransformed);
      t.registry == o.registry && t.exportTransformed == o.exportTransformed
  {
    if s.calledSetup then s
    else
      var o := env.makeTransformers(s.registry, s.exportTransformed);
      State(true, o.registry, o.exportTransformed)
  }

  /** What `transform` does, as a function of its inputs and the state. The
      export switch is read after setup, which may have changed it. */
  function TransformSpec(env: Environment, myClassName: string, s: State,
                         className: Option<string>, basicClass: Option<Bytes>): Outcome
  {
    if basicClass.None? || className.None? then Outcome(s, None, None)
    else
      var name, bytes := className.value, basicClass.value;
      if IsProtected(name, myClassName) then Outcome(s, Some(bytes), None)
      else
        var t := AfterSetup(env, s);
        var reg := t.registry;
        if name in reg.classReplacers then
          Outcome(t, Some(env.loadClassResource(reg.classReplacers[name])), None)
        else
          var ws := MatchingWriters(reg.asmWriters, name);
          if ws == [] then Outcome(t, Some(bytes), None)
          else
            var out := env.serialize(ApplyAll(ws, env.parse(bytes))).bytes;
            Outcome(t, Some(out),
                    if t.exportTransformed then Some((ExportPath(env.exportDir, env.separator, name), out)) else None)
  }

  /** A null class or class name gives null and changes nothing. */
  lemma {:induction false} NullInNullOut(env: Environment, my: string, s: State,
                                         className: Option<string>, basicClass: Option<Bytes>)
    requires basicClass.None? || className.None?
    ensures TransformSpec(env, my, s, className, basicClass) == Outcome(s, None, None)
  {
  }

  /** Protected classes come back unchanged, without triggering setup. */
  lemma {:induction false} ProtectedPassThrough(env: Environment, my: string, s: State,
                                                name: string, bytes: Bytes)
    requires StartsWithAny(name, ["kotlin/", "dev/falsehonesty/asmhelper/", my])
    ensures TransformSpec(env, my, s, Some(name), Some(bytes)) == Outcome(s, Some(bytes), None)
  {
    PackagePrefixes();
  }

  predicate StartsWithAny(name: string, prefixes: seq<string>) {
    exists i :: 0 <= i < |prefixes| && prefixes[i] <= name
  }

  /** Any other non-null class goes through setup: the flag ends up set, and
      `makeTransformers` has run, with its registrations and export switch
      taken over, exactly when it had not before. */
  lemma {:induction false} SetupRunsOnce(env: Environment, my: string, s: State,
                                         name: string, bytes: Bytes)
    requires !IsProtected(name, my)
    ensures var o := TransformSpec(env, my, s, Some(name), Some(bytes));
      var m := env.makeTransformers(s.registry, s.exportTransformed);
      && o.state.calledSetup
      && o.state.registry == (if s.calledSetup then s.registry else m.registry)
      && o.state.exportTransformed == (if s.calledSetup then s.exportTransformed else m.exportTransformed)
  {
  }

  /** Two eligible calls in a row run `makeTransformers` once: the second
      leaves the state the first produced. */
  lemma {:induction false} SetupNotRepeated(env: Environment, my: string, s: State,
                                            n1: string, b1: Bytes, n2: Option<string>, b2: Option<Bytes>)
    requires !IsProtected(n1, my)
    ensures var o1 := TransformSpec(env, my, s, Some(n1), Some(b1));
      var o2 := TransformSpec(env, my, o1.state, n2, b2);
      o2.state == o1.state
  {
    SetupRunsOnce(env, my, s, n1, b1);
  }

  /** A `makeTransformers` that throws is not retried: the flag is set, what
      it registered before throwing stays, and the next call leaves the
      state as it is. */
  lemma {:induction false} ThrowingSetupNotRetried(env: Environment, my: string, s: State,
                                                   n1: string, b1: Bytes, n2: Option<string>, b2: Option<Bytes>)
    requires !IsProtected(n1, my) && !s.calledSetup
    requires env.makeTransformers(s.registry, s.exportTransformed).threw
    ensures var o1 := TransformSpec(env, my, s, Some(n1), Some(b1));
      var m := env.makeTransformers(s.registry, s.exportTransformed);
      && o1.state == State(true, m.registry, m.exportTransformed)
      && TransformSpec(env, my, o1.state, n2, b2).state == o1.state
  {
    SetupNotRepeated(env, my, s, n1, b1, n2, b2);
  }

  /** A class bound to a replacement resource gets that resource's bytes,
      whatever its own bytes were, and no writer is consulted. */
  lemma {:induction false} ReplacementIgnoresInput(env: Environment, my: string, s: State,
                                                   name: string, b1: Bytes, b2: Bytes)
    requires !IsProtected(name, my)
    requires name in AfterSetup(env, s).registry.classReplacers
    ensures var o := TransformSpec(env, my, s, Some(name), Some(b1));
      && o.result == Some(env.loadClassResource(AfterSetup(env, s).registry.classReplacers[name]))
      && o == TransformSpec(env, my, s, Some(name), Some(b2))
      && o.exportFile == None
  {
  }

  /** With no replacement and no writer for the class, its bytes come back
      unchanged. */
  lemma {:induction false} NoWriterPassThrough(env: Environment, my: string, s: State,
                                               name: string, bytes: Bytes)
    requires !IsProtected(name, my)
    requires name !in AfterSetup(env, s).registry.classReplacers
    requires forall w :: w in AfterSetup(env, s).registry.asmWriters ==> !Targets(w, name)
    ensures TransformSpec(env, my, s, Some(name), Some(bytes)).result == Some(bytes)
  {
    var ws := AfterSetup(env, s).registry.asmWriters;
    var m := MatchingWriters(ws, name);
    if m != [] {
      MatchingWritersMembers(ws, name, m[0]);
      assert false;
    }
  }

  /** With writers for the class, the result is the serialization of the
      tree every matching writer has edited, in registration order; a later
      registration of a writer runs after the earlier ones. */
  lemma {:induction false} WritersInRegistrationOrder(env: Environment, my: string, s: State,
                                                      name: string, bytes: Bytes,
                                                      earlier: seq<AsmWriter>, later: seq<AsmWriter>)
    requires !IsProtected(name, my)
    requires AfterSetup(env, s).registry.asmWriters == earlier + later
    requires name !in AfterSetup(env, s).registry.classReplacers
    requires MatchingWriters(earlier + later, name) != []
    ensures var tree := ApplyAll(MatchingWriters(later, name), ApplyAll(MatchingWriters(earlier, name), env.parse(bytes)));
      TransformSpec(env, my, s, Some(name), Some(bytes)).result == Some(env.serialize(tree).bytes)
  {
    MatchingWritersAppend(earlier, later, name);
    ApplyAllAppend(MatchingWriters(earlier, name), MatchingWriters(later, name), env.parse(bytes));
  }

  /** A serialization that throws part-way still gives the class writer's
      bytes, not the original input. */
  lemma {:induction false} FaultedSerializationKeepsWriterBytes(env: Environment, my: string, s: State,
                                                                name: string, bytes: Bytes)
    requires !IsProtected(name, my)
    requires name !in AfterSetup(env, s).registry.classReplacers
    requires MatchingWriters(AfterSetup(env, s).registry.asmWriters, name) != []
    requires env.serialize(ApplyAll(MatchingWriters(AfterSetup(env, s).registry.asmWriters, name), env.parse(bytes))).faulted
    ensures var ser := env.serialize(ApplyAll(MatchingWriters(AfterSetup(env, s).registry.asmWriters, name), env.parse(bytes)));
      TransformSpec(env, my, s, Some(name), Some(bytes)).result == Some(ser.bytes)
  {
  }

  /** A file is exported exactly for a transformed class (not null, not
      protected, not replaced, with writers) when the switch is on after
      setup, and it holds exactly the bytes returned, at the class's export
      path. */
  lemma {:induction false} ExportOnlyTransformed(env: Environment, my: string, s: State,
                                                 className: Option<string>, basicClass: Option<Bytes>)
    ensures var o := TransformSpec(env, my, s, className, basicClass);
      && (o.exportFile.Some? <==>
            className.Some? && basicClass.Some? && !IsProtected(className.value, my)
            && className.value !in o.state.registry.classReplacers
            && MatchingWriters(o.state.registry.asmWriters, className.value) != []
            && o.state.exportTransformed)
      && (o.exportFile.Some? ==>
            o.result == Some(o.exportFile.value.1)
            && o.exportFile.value.0 == ExportPath(env.exportDir, env.separator, className.value))
  {
  }

  /** Once setup has run, the export switch changes neither the result nor
      the registrations: exporting only adds the file. */
  lemma {:induction false} ExportDoesNotChangeResult(env: Environment, my: string, s: State,
                                                     className: Option<string>, basicClass: Option<Bytes>)
    requires s.calledSetup
    ensures var o1 := TransformSpec(env, my, s, className, basicClass);
      var o2 := TransformSpec(env, my, s.(exportTransformed := !s.exportTransformed), className, basicClass);
      && o1.result == o2.result
      && o1.state.calledSetup == o2.state.calledSetup
      && o1.state.registry == o2.state.registry
  {
  }

  /** The `forEach` over the matching writers: each edits the tree the
      previous one left. */
  method RunWriters(writers: seq<AsmWriter>, tree: ClassTree) returns (t: ClassTree)
    ensures t == ApplyAll(writers, tree)
  {
    t := tree;
    var i := 0;
    while i < |writers|
      invariant 0 <= i <= |writers|
      invariant t == ApplyAll(writers[..i], tree)
    {
      t := writers[i].transform(t);
      assert writers[..i + 1][..i] == writers[..i];
      i := i + 1;
    }
    assert writers[..i] == writers;
  }

  // ---------------------------------------------------------------------
  // The transformer object

  class InstrumentationClassTransformer {
    const env: Environment
    /** `javaClass.name.replace(".", "/")`. */
    const myClassName: string
    var calledSetup: bool
    /** This object's copy of the global `AsmHelper` registrations: it
        starts as the constructor's argument and only this object's
        `makeTransformers` changes it. */
    var registry: Registry
    var exportTransformed: bool
    /** The files written to the export directory, in order. */
    var exported: seq<(string, Bytes)>

    constructor (env: Environment, javaClassName: string, registry: Registry)
      ensures this.env == env && myClassName == Replace(javaClassName, '.', '/')
      ensures !calledSetup && !exportTransformed && this.registry == registry && exported == []
    {
      this.env := env;
      myClassName := Replace(javaClassName, '.', '/');
      calledSetup := false;
      this.registry := registry;
      exportTransformed := false;
      exported := [];
    }

    /** A subclass assigning the protected `exportTransformed` switch. */
    method SetExportTransformed(on: bool)
      modifies this`exportTransformed
      ensures exportTransformed == on
    {
      exportTransformed := on;
    }

    method Transform(className: Option<string>, basicClass: Option<Bytes>) returns (r: Option<Bytes>)
      modifies this
      ensures var o := TransformSpec(env, myClassName, old(State(calledSetup, registry, exportTransformed)),
                                     className, basicClass);
        && r == o.result
        && State(calledSetup, registry, exportTransformed) == o.state
        && exported == old(exported) + (if o.exportFile.Some? then [o.exportFile.value] else [])
    {
      if basicClass.None? || className.None? {
        return None;
      }
      var name, bytes := className.value, basicClass.value;
      if IsProtected(name, myClassName) {
        return Some(bytes);
      }
      if !calledSetup {
        var outcome := env.makeTransformers(registry, exportTransformed);
        registry := outcome.registry;
        exportTransformed := outcome.exportTransformed;
        calledSetup := true;
      }
      if name in registry.classReplacers {
        return Some(env.loadClassResource(registry.classReplacers[name]));
      }
      var writers := MatchingWriters(registry.asmWriters, name);
      if writers == [] {
        return Some(bytes);
      }
      var classNode := RunWriters(writers, env.parse(bytes));
      var result := env.serialize(classNode).bytes;
      if exportTransformed {
        exported := exported + [(ExportPath(env.exportDir, env.separator, name), result)];
      }
      r := Some(result);
    }
  }
}
