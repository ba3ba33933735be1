/** What a composed program computes: modules of function definitions in one
    namespace, where a later definition of a name replaces an earlier one and
    names are looked up when they are used. */
module Composition {
  import opened Wrappers

  /** Function bodies: data, the parameter, a name, or one term applied to another. */
  datatype Term = Number(n: int) | Argument | Name(s: string) | Apply(f: Term, x: Term)

  datatype Value = Data(n: int) | Function(name: string)

  datatype Def = Def(name: string, body: Term)

  type Code = seq<Def>

  const ENTRY := "entrypoint"
  const G_ENTRY := "_g_entrypoint"
  const D_ENTRY := "_d_entrypoint"
  const RESERVED: set<string> := {ENTRY, G_ENTRY, D_ENTRY}

  // ----- what code means -----

  function Bindings(code: Code): map<string, Term> {
    if code == [] then map[] else Bindings(code[..|code| - 1])[code[|code| - 1].name := code[|code| - 1].body]
  }

  /** `None` is an error, or a computation that needs more than `fuel` nested calls. */
  function Eval(b: map<string, Term>, t: Term, arg: Value, fuel: nat): Option<Value>
    decreases fuel, t
  {
    match t
    case Number(n) => Some(Data(n))
    case Argument => Some(arg)
    case Name(s) => if s in b then Some(Function(s)) else None
    case Apply(f, x) =>
      var callee, operand := Eval(b, f, arg, fuel), Eval(b, x, arg, fuel);
      if fuel == 0 || callee.None? || operand.None? || callee.value.Data? || callee.value.name !in b then None
      else Eval(b, b[callee.value.name], operand.value, fuel - 1)
  }

  function Call(b: map<string, Term>, name: string, fuel: nat): Option<Value> { Eval(b, Apply(Name(name), Number(0)), Data(0), fuel) }

  function Run(code: Code, fuel: nat): Option<Value> { Call(Bindings(code), ENTRY, fuel) }

  // ----- composition -----

  /** Only the first definition of the entry point is renamed, and no use of it. */
  function Rename(code: Code, name: string): Code {
    if code == [] then []
    else if code[0].name == ENTRY then [Def(name, code[0].body)] + code[1..]
    else [code[0]] + Rename(code[1..], name)
  }

  const WRAPPER := Apply(Apply(Name(D_ENTRY), Number(0)), Apply(Name(G_ENTRY), Number(0)))

  function Compose(g: Code, d: Code): Code { Rename(g, G_ENTRY) + Rename(d, D_ENTRY) + [Def(ENTRY, WRAPPER)] }

  /** D(G()): D's callable, in D's module, applied to what G's module computes. */
  function Intended(g: Code, d: Code, fuel: nat): Option<Value> {
    var output, callable := Run(g, fuel), Run(d, fuel);
    if fuel == 0 || output.None? || callable.None? || callable.value.Data? || callable.value.name !in Bindings(d) then None
    else Eval(Bindings(d), Bindings(d)[callable.value.name], output.value, fuel - 1)
  }

  // ----- bindings -----

  lemma {:induction false} BindingsConcat(a: Code, b: Code)
    ensures Bindings(a + b) == Bindings(a) + Bindings(b)
  {
    if b == [] {
      assert a + b == a;
    } else {
      var n := |b| - 1;
      BindingsConcat(a, b[..n]);
      assert (a + b)[..|a + b| - 1] == a + b[..n];
    }
  }

  function Refs(t: Term): set<string> {
    match t
    case Number(_) => {}
    case Argument => {}
    case Name(s) => {s}
    case Apply(f, x) => Refs(f) + Refs(x)
  }

  /** One entry point, and no other mention of the names that composing uses. */
  predicate Plain(code: Code) {
    && (exists i :: 0 <= i < |code| && code[i].name == ENTRY && forall j :: 0 <= j < |code| && j != i ==> code[j].name !in RESERVED)
    && forall j :: 0 <= j < |code| ==> Refs(code[j].body) !! RESERVED
  }

  /** The names that code uses. */
  function Uses(code: Code): set<string> {
    if code == [] then {} else Uses(code[..|code| - 1]) + Refs(code[|code| - 1].body)
  }

  lemma {:induction false} UsesAre(code: Code, s: string)
    requires s in Bindings(code)
    ensures Refs(Bindings(code)[s]) <= Uses(code)
  {
    var n := |code| - 1;
    if s != code[n].name {
      UsesAre(code[..n], s);
    }
  }

  lemma {:induction false} PlainUses(code: Code)
    requires forall j :: 0 <= j < |code| ==> Refs(code[j].body) !! RESERVED
    ensures Uses(code) !! RESERVED
  {
    if code != [] {
      PlainUses(code[..|code| - 1]);
    }
  }

  /** Defined nowhere is bound nowhere. */
  lemma {:induction false} Unbound(code: Code, s: string)
    requires forall j :: 0 <= j < |code| ==> code[j].name != s
    ensures s !in Bindings(code)
  {
    if code != [] {
      Unbound(code[..|code| - 1], s);
    }
  }

  lemma {:induction false} RenameAt(code: Code, i: nat, name: string)
    requires i < |code| && code[i].name == ENTRY && forall j :: 0 <= j < i ==> code[j].name != ENTRY
    ensures Rename(code, name) == code[..i] + [Def(name, code[i].body)] + code[i + 1..]
  {
    if i > 0 {
      RenameAt(code[1..], i - 1, name);
      assert code[1..][..i - 1] == code[..i][1..] && code[1..][i..] == code[i + 1..];
    }
  }

  lemma {:induction false} BindingsAround(before: Code, x: Def, after: Code)
    ensures Bindings(before + [x] + after) == Bindings(before)[x.name := x.body] + Bindings(after)
  {
    BindingsConcat(before + [x], after);
    BindingsConcat(before, [x]);
  }

  /** Where plain code defines its entry point. */
  lemma {:induction false} EntryIndex(code: Code) returns (i: nat)
    requires Plain(code)
    ensures i < |code| && code[i].name == ENTRY && forall j :: 0 <= j < |code| && j != i ==> code[j].name !in RESERVED
  {
    i :| i < |code| && code[i].name == ENTRY && forall j :: 0 <= j < |code| && j != i ==> code[j].name !in RESERVED;
  }

  lemma {:induction false} UnboundAround(code: Code, i: nat, s: string)
    requires i < |code| && s in RESERVED && forall j :: 0 <= j < |code| && j != i ==> code[j].name !in RESERVED
    ensures s !in Bindings(code[..i]) && s !in Bindings(code[i + 1..])
  {
    Unbound(code[..i], s);
    Unbound(code[i + 1..], s);
  }

  /** Renaming plain code moves the entry point and leaves the rest. */
  lemma {:induction false} RenamePlain(code: Code, name: string)
    requires Plain(code) && name in RESERVED && name != ENTRY
    ensures ENTRY in Bindings(code) && name !in Bindings(code)
    ensures Bindings(Rename(code, name)) == (Bindings(code) - {ENTRY})[name := Bindings(code)[ENTRY]]
  {
    var i := EntryIndex(code);
    var before, body, after := code[..i], code[i].body, code[i + 1..];
    assert code == before + [Def(ENTRY, body)] + after;
    RenameAt(code, i, name);
    UnboundAround(code, i, ENTRY);
    UnboundAround(code, i, name);
    BindingsAround(before, Def(ENTRY, body), after);
    BindingsAround(before, Def(name, body), after);
    MovedBinding(Bindings(before), Bindings(after), body, name);
  }

  lemma {:induction false} MovedBinding(b: map<string, Term>, c: map<string, Term>, body: Term, name: string)
    requires ENTRY !in b && ENTRY !in c && name !in b && name !in c && name != ENTRY
    ensures var whole := b[ENTRY := body] + c;
      && ENTRY in whole && whole[ENTRY] == body && name !in whole
      && b[name := body] + c == (whole - {ENTRY})[name := body]
  {
  }

  lemma {:induction false} PlainBindings(code: Code)
    requires Plain(code)
    ensures ENTRY in Bindings(code) && G_ENTRY !in Bindings(code) && D_ENTRY !in Bindings(code)
  {
    RenamePlain(code, G_ENTRY);
    RenamePlain(code, D_ENTRY);
  }

  function Merged(b: map<string, Term>, c: map<string, Term>): map<string, Term>
    requires ENTRY in b && ENTRY in c
  {
    ((b - {ENTRY}) + (c - {ENTRY}))[G_ENTRY := b[ENTRY]][D_ENTRY := c[ENTRY]][ENTRY := WRAPPER]
  }

  lemma {:induction false} MergedParts(b: map<string, Term>, c: map<string, Term>)
    requires ENTRY in b && ENTRY in c && G_ENTRY !in c && D_ENTRY !in b
    ensures (b - {ENTRY})[G_ENTRY := b[ENTRY]] + (c - {ENTRY})[D_ENTRY := c[ENTRY]] + map[ENTRY := WRAPPER] == Merged(b, c)
  {
  }

  /** The namespace of a composition of plain codes. */
  lemma {:induction false} ComposedBindings(g: Code, d: Code)
    requires Plain(g) && Plain(d)
    ensures ENTRY in Bindings(g) && ENTRY in Bindings(d)
    ensures Bindings(Compose(g, d)) == Merged(Bindings(g), Bindings(d))
  {
    PlainBindings(g);
    PlainBindings(d);
    RenamePlain(g, G_ENTRY);
    RenamePlain(d, D_ENTRY);
    BindingsConcat(Rename(g, G_ENTRY) + Rename(d, D_ENTRY), [Def(ENTRY, WRAPPER)]);
    BindingsConcat(Rename(g, G_ENTRY), Rename(d, D_ENTRY));
    MergedParts(Bindings(g), Bindings(d));
  }

  // ----- code does not notice names that it does not use -----

  /** On these names, which lead to no others, both namespaces agree. */
  predicate Agree(b: map<string, Term>, c: map<string, Term>, names: set<string>) {
    forall s :: s in names ==> (s in b <==> s in c) && (s in b ==> b[s] == c[s] && Refs(b[s]) <= names)
  }

  predicate Within(v: Value, names: set<string>) { v.Function? ==> v.name in names }

  lemma {:induction false} SameResult(b: map<string, Term>, c: map<string, Term>, names: set<string>, t: Term, arg: Value, fuel: nat)
    requires Agree(b, c, names) && Refs(t) <= names && Within(arg, names)
    ensures Eval(b, t, arg, fuel) == Eval(c, t, arg, fuel)
    ensures Eval(b, t, arg, fuel).Some? ==> Within(Eval(b, t, arg, fuel).value, names)
    decreases fuel, t
  {
    match t
    case Number(_) =>
    case Argument =>
    case Name(_) =>
    case Apply(f, x) =>
      SameResult(b, c, names, f, arg, fuel);
      SameResult(b, c, names, x, arg, fuel);
      var callee, operand := Eval(b, f, arg, fuel), Eval(b, x, arg, fuel);
      if fuel > 0 && callee.Some? && operand.Some? && callee.value.Function? && callee.value.name in b {
        SameResult(b, c, names, b[callee.value.name], operand.value, fuel - 1);
      }
  }

  /** In the composition each code finds, under every name that it uses, what it
      finds on its own: its helpers survive, and what it lacks stays undefined.
      Both may define a helper alike. */
  predicate Fits(g: Code, d: Code) {
    && Agree(Bindings(g), Bindings(Compose(g, d)), Uses(g))
    && Agree(Bindings(d), Bindings(Compose(g, d)), Uses(d))
  }

  lemma {:induction false} EarlierNames(b: map<string, Term>, c: map<string, Term>, names: set<string>)
    requires ENTRY in b && ENTRY in c && names !! RESERVED && forall s :: s in b ==> Refs(b[s]) <= names
    ensures Agree(b, Merged(b, c), names) <==> forall s :: s in names && s in c ==> s in b && b[s] == c[s]
  {
  }

  lemma {:induction false} LaterNames(b: map<string, Term>, c: map<string, Term>, names: set<string>)
    requires ENTRY in b && ENTRY in c && names !! RESERVED && forall s :: s in c ==> Refs(c[s]) <= names
    ensures Agree(c, Merged(b, c), names) <==> forall s :: s in names && s in b ==> s in c
  {
  }

  lemma {:induction false} PlainRefs(code: Code)
    requires Plain(code)
    ensures Uses(code) !! RESERVED && forall s :: s in Bindings(code) ==> Refs(Bindings(code)[s]) <= Uses(code)
  {
    PlainUses(code);
    forall s | s in Bindings(code)
      ensures Refs(Bindings(code)[s]) <= Uses(code)
    {
      UsesAre(code, s);
    }
  }

  /** Name by name: what G uses and D defines, G defines alike; and what D uses
      and G defines, D defines itself. */
  lemma {:induction false} FittingNames(g: Code, d: Code)
    requires Plain(g) && Plain(d)
    ensures Fits(g, d) <==>
      && (forall s :: s in Uses(g) && s in Bindings(d) ==> s in Bindings(g) && Bindings(g)[s] == Bindings(d)[s])
      && (forall s :: s in Uses(d) && s in Bindings(g) ==> s in Bindings(d))
  {
    ComposedBindings(g, d);
    PlainRefs(g);
    PlainRefs(d);
    EarlierNames(Bindings(g), Bindings(d), Uses(g));
    LaterNames(Bindings(g), Bindings(d), Uses(d));
  }

  lemma {:induction false} CallUnfolds(b: map<string, Term>, name: string, fuel: nat)
    requires name in b
    ensures Call(b, name, fuel) == if fuel == 0 then None else Eval(b, b[name], Data(0), fuel - 1)
  {
    assert Eval(b, Name(name), Data(0), fuel) == Some(Function(name));
    assert Eval(b, Number(0), Data(0), fuel) == Some(Data(0));
  }

  lemma {:induction false} EntryRuns(code: Code, c: map<string, Term>, name: string, fuel: nat)
    requires ENTRY in Bindings(code) && name in c && c[name] == Bindings(code)[ENTRY]
    requires Agree(Bindings(code), c, Uses(code))
    ensures Call(c, name, fuel) == Run(code, fuel)
    ensures Run(code, fuel).Some? ==> Within(Run(code, fuel).value, Uses(code))
  {
    CallUnfolds(c, name, fuel);
    CallUnfolds(Bindings(code), ENTRY, fuel);
    UsesAre(code, ENTRY);
    if fuel > 0 {
      SameResult(Bindings(code), c, Uses(code), c[name], Data(0), fuel - 1);
    }
  }

  /** The wrapper applies what the D entry returns to what the G entry returns. */
  lemma {:induction false} WrapperRuns(c: map<string, Term>, fuel: nat)
    requires ENTRY in c && c[ENTRY] == WRAPPER
    ensures var output, callable := Call(c, G_ENTRY, fuel), Call(c, D_ENTRY, fuel);
      Call(c, ENTRY, fuel + 1) ==
      if fuel == 0 || output.None? || callable.None? || callable.value.Data? || callable.value.name !in c then None
      else Eval(c, c[callable.value.name], output.value, fuel - 1)
  {
    CallUnfolds(c, ENTRY, fuel + 1);
  }

  ghost predicate ComputesData(g: Code) {
    forall fuel: nat :: Run(g, fuel).Some? ==> Run(g, fuel).value.Data?
  }

  /** Composing is application at every depth of calls. */
  ghost predicate Composes(g: Code, d: Code) {
    forall fuel: nat :: Run(Compose(g, d), fuel + 1) == Intended(g, d, fuel)
  }

  /** Composing plain codes that fit computes D(G()): for every G that computes
      data, the composition computes what D's callable makes of it, and fails or
      runs on exactly where that does. */
  lemma {:induction false} CompositionIsApplication(g: Code, d: Code)
    requires Plain(g) && Plain(d) && Fits(g, d) && ComputesData(g)
    ensures Composes(g, d)
  {
    var c := Bindings(Compose(g, d));
    ComposedBindings(g, d);
    forall fuel: nat
      ensures Run(Compose(g, d), fuel + 1) == Intended(g, d, fuel)
    {
      EntryRuns(g, c, G_ENTRY, fuel);
      EntryRuns(d, c, D_ENTRY, fuel);
      WrapperRuns(c, fuel);
      var output, callable := Run(g, fuel), Run(d, fuel);
      if fuel > 0 && output.Some? && callable.Some? && callable.value.Function? && callable.value.name in Bindings(d) {
        UsesAre(d, callable.value.name);
        SameResult(Bindings(d), c, Uses(d), Bindings(d)[callable.value.name], output.value, fuel - 1);
      }
    }
  }

  // ----- what an interface promises -----

  /** The names a module defines besides its entry point, and those it may use. */
  datatype Interface = Interface(defines: set<string>, uses: set<string>)

  predicate Unreserved(i: Interface) { i.defines !! RESERVED && i.uses !! RESERVED }

  predicate Has(code: Code, i: Interface) {
    Plain(code) && Bindings(code).Keys == i.defines + {ENTRY} && Uses(code) <= i.uses
  }

  /** D does not come to see G's helpers; and it does not redefine a name that
      G uses, unless it has no callable to return in the first place. */
  predicate NoClash(g: Interface, d: Interface) {
    && d.uses * g.defines <= d.defines
    && (g.uses !! d.defines || d.uses !! d.defines)
  }

  lemma {:induction false} ApartFits(g: Code, d: Code, gi: Interface, di: Interface)
    requires Unreserved(gi) && Unreserved(di) && Has(g, gi) && Has(d, di)
    requires di.uses * gi.defines <= di.defines && gi.uses !! di.defines
    ensures Fits(g, d)
  {
    FittingNames(g, d);
  }

  /** A term that names nothing bound computes no function. */
  lemma {:induction false} NoFunction(b: map<string, Term>, t: Term, fuel: nat)
    requires Refs(t) !! b.Keys
    ensures Eval(b, t, Data(0), fuel).Some? ==> Eval(b, t, Data(0), fuel).value.Data?
    decreases t
  {
    match t
    case Number(_) =>
    case Argument =>
    case Name(_) =>
    case Apply(f, x) => NoFunction(b, f, fuel);
  }

  lemma {:induction false} NoCallable(g: Code, d: Code, gi: Interface, di: Interface)
    requires Unreserved(gi) && Unreserved(di) && Has(g, gi) && Has(d, di)
    requires di.uses * gi.defines <= di.defines && di.uses !! di.defines
    ensures Composes(g, d)
  {
    ComposedBindings(g, d);
    UsesAre(d, ENTRY);
    var c := Bindings(Compose(g, d));
    forall fuel: nat
      ensures Run(Compose(g, d), fuel + 1) == Intended(g, d, fuel)
    {
      WrapperRuns(c, fuel);
      CallUnfolds(c, D_ENTRY, fuel);
      CallUnfolds(Bindings(d), ENTRY, fuel);
      if fuel > 0 {
        NoFunction(c, c[D_ENTRY], fuel - 1);
        NoFunction(Bindings(d), c[D_ENTRY], fuel - 1);
      }
    }
  }

  lemma {:induction false} NoClashComposes(g: Code, d: Code, gi: Interface, di: Interface)
    requires Unreserved(gi) && Unreserved(di) && Has(g, gi) && Has(d, di) && ComputesData(g) && NoClash(gi, di)
    ensures Composes(g, d)
  {
    if gi.uses !! di.defines {
      ApartFits(g, d, gi, di);
      CompositionIsApplication(g, d);
    } else {
      NoCallable(g, d, gi, di);
    }
  }

  // ----- what a clash can do -----

  lemma {:induction false} OneMore(code: Code, d: Def)
    ensures Bindings(code + [d]) == Bindings(code)[d.name := d.body]
    ensures Uses(code + [d]) == Uses(code) + Refs(d.body)
  {
    assert (code + [d])[..|code + [d]| - 1] == code;
  }

  /** `code` defines these names, all alike. */
  predicate IsUniform(code: Code, names: set<string>, body: Term) {
    && (forall j :: 0 <= j < |code| ==> code[j].name in names && code[j].body == body)
    && Bindings(code).Keys == names && (forall s :: s in names ==> Bindings(code)[s] == body)
    && Uses(code) == {}
  }

  lemma {:induction false} Uniform(names: set<string>, body: Term) returns (code: Code)
    requires Refs(body) == {}
    ensures IsUniform(code, names, body)
    decreases |names|
  {
    if names == {} {
      code := [];
    } else {
      var s :| s in names;
      var rest := Uniform(names - {s}, body);
      code := rest + [Def(s, body)];
      OneMore(rest, Def(s, body));
    }
  }

  lemma {:induction false} EntryLast(helpers: Code, entry: Term)
    requires forall j :: 0 <= j < |helpers| ==> helpers[j].name !in RESERVED && Refs(helpers[j].body) == {}
    requires Refs(entry) !! RESERVED
    ensures Plain(helpers + [Def(ENTRY, entry)])
  {
    assert (helpers + [Def(ENTRY, entry)])[|helpers|].name == ENTRY;
  }

  /** A module with the given entry point and one body for all its helpers. */
  lemma {:induction false} Module(i: Interface, helper: Term, entry: Term) returns (code: Code)
    requires Unreserved(i) && Refs(helper) == {} && Refs(entry) <= i.uses
    ensures Has(code, i)
    ensures Bindings(code)[ENTRY] == entry && forall s :: s in i.defines ==> Bindings(code)[s] == helper
  {
    var helpers := Uniform(i.defines, helper);
    code := helpers + [Def(ENTRY, entry)];
    EntryLast(helpers, entry);
    OneMore(helpers, Def(ENTRY, entry));
  }

  /** An entry point that calls the helper `s`. */
  lemma {:induction false} HelperRuns(b: map<string, Term>, name: string, s: string, fuel: nat)
    requires name in b && b[name] == Apply(Name(s), Number(0))
    ensures Call(b, name, fuel) == if fuel < 2 || s !in b then None else Eval(b, b[s], Data(0), fuel - 2)
  {
    CallUnfolds(b, name, fuel);
    if fuel > 0 && s in b {
      CallUnfolds(b, s, fuel - 1);
    }
  }

  lemma {:induction false} CallableRuns(b: map<string, Term>, name: string, s: string, fuel: nat)
    requires name in b && b[name] == Name(s)
    ensures Call(b, name, fuel) == if fuel == 0 || s !in b then None else Some(Function(s))
  {
    CallUnfolds(b, name, fuel);
  }

  /** G calls a name that D defines: D's definition answers. */
  lemma {:induction false} RedefinedName(gi: Interface, di: Interface, s: string, callable: string) returns (g: Code, d: Code)
    requires Unreserved(gi) && Unreserved(di) && s in gi.uses && s in di.defines && callable in di.uses && callable in di.defines
    ensures Has(g, gi) && Has(d, di) && ComputesData(g) && !Composes(g, d)
  {
    g := Module(gi, Number(1), Apply(Name(s), Number(0)));
    d := Module(di, Argument, Name(callable));
    var b, c := Bindings(g), Bindings(Compose(g, d));
    ComposedBindings(g, d);
    forall fuel: nat
      ensures Run(g, fuel).Some? ==> Run(g, fuel).value == Data(1)
    {
      HelperRuns(b, ENTRY, s, fuel);
    }
    HelperRuns(c, G_ENTRY, s, 3);
    CallableRuns(c, D_ENTRY, callable, 3);
    CallableRuns(Bindings(d), ENTRY, callable, 3);
    WrapperRuns(c, 3);
    assert Run(Compose(g, d), 3 + 1) == Some(Data(0));
    assert Intended(g, d, 3) != Some(Data(0));
  }

  /** D names what only G defines: it is found all the same. */
  lemma {:induction false} BorrowedName(gi: Interface, di: Interface, s: string) returns (g: Code, d: Code)
    requires Unreserved(gi) && Unreserved(di) && s in di.uses && s in gi.defines && s !in di.defines
    ensures Has(g, gi) && Has(d, di) && ComputesData(g) && !Composes(g, d)
  {
    g := Module(gi, Number(1), Number(0));
    d := Module(di, Argument, Name(s));
    var c := Bindings(Compose(g, d));
    ComposedBindings(g, d);
    forall fuel: nat
      ensures Run(g, fuel).Some? ==> Run(g, fuel).value.Data?
    {
      CallUnfolds(Bindings(g), ENTRY, fuel);
    }
    CallUnfolds(c, G_ENTRY, 2);
    CallableRuns(c, D_ENTRY, s, 2);
    CallableRuns(Bindings(d), ENTRY, s, 2);
    WrapperRuns(c, 2);
    assert Run(Compose(g, d), 2 + 1) == Some(Data(1));
    assert Intended(g, d, 2) == None;
  }

  /** The exact condition on interfaces: all plain modules with these names, whose
      G computes data, compose to D(G()) if and only if the names do not clash. */
  lemma {:induction false} InterfacesCompose(gi: Interface, di: Interface)
    requires Unreserved(gi) && Unreserved(di)
    ensures (forall g, d :: Has(g, gi) && Has(d, di) && ComputesData(g) ==> Composes(g, d)) <==> NoClash(gi, di)
  {
    if NoClash(gi, di) {
      forall g, d | Has(g, gi) && Has(d, di) && ComputesData(g)
        ensures Composes(g, d)
      {
        NoClashComposes(g, d, gi, di);
      }
    } else if s :| s in di.uses * gi.defines && s !in di.defines {
      var g, d := BorrowedName(gi, di, s);
    } else {
      assert gi.uses * di.defines != {} && di.uses * di.defines != {};
      var s :| s in gi.uses * di.defines;
      var callable :| callable in di.uses * di.defines;
      var g, d := RedefinedName(gi, di, s, callable);
    }
  }

  // ----- composing a composition -----

  /** Exactly one definition of the entry point. */
  predicate OneEntry(code: Code) {
    exists i :: 0 <= i < |code| && code[i].name == ENTRY && forall j :: 0 <= j < |code| && j != i ==> code[j].name != ENTRY
  }

  lemma {:induction false} NoEntryLeft(code: Code, name: string)
    requires OneEntry(code) && name != ENTRY
    ensures forall j :: 0 <= j < |Rename(code, name)| ==> Rename(code, name)[j].name != ENTRY
  {
    var i :| 0 <= i < |code| && code[i].name == ENTRY && forall j :: 0 <= j < |code| && j != i ==> code[j].name != ENTRY;
    RenameAt(code, i, name);
  }

  lemma {:induction false} EntryAtTheEnd(inner: Code, body: Term, name: string)
    requires forall j :: 0 <= j < |inner| ==> inner[j].name != ENTRY
    ensures OneEntry(inner + [Def(ENTRY, body)])
    ensures Rename(inner + [Def(ENTRY, body)], name) == inner + [Def(name, body)]
  {
    var whole := inner + [Def(ENTRY, body)];
    assert whole[|inner|].name == ENTRY;
    RenameAt(whole, |inner|, name);
    assert whole[..|inner|] == inner && whole[|inner| + 1..] == [];
  }

  /** The wrapper is the only entry point of a composition. */
  lemma {:induction false} RenamedWrapper(g: Code, d: Code, name: string)
    requires OneEntry(g) && OneEntry(d)
    ensures OneEntry(Compose(g, d))
    ensures Rename(Compose(g, d), name) == Rename(g, G_ENTRY) + Rename(d, D_ENTRY) + [Def(name, WRAPPER)]
  {
    NoEntryLeft(g, G_ENTRY);
    NoEntryLeft(d, D_ENTRY);
    EntryAtTheEnd(Rename(g, G_ENTRY) + Rename(d, D_ENTRY), WRAPPER, name);
  }

  lemma {:induction false} RecomposedBindings(g: Code, first: Code, second: Code)
    requires OneEntry(g) && OneEntry(first) && Plain(second)
    ensures var c := Bindings(Compose(Compose(g, first), second)); G_ENTRY in c && c[G_ENTRY] == WRAPPER && ENTRY in c && c[ENTRY] == WRAPPER
  {
    var inner := Rename(g, G_ENTRY) + Rename(first, D_ENTRY);
    var host := Compose(g, first);
    RenamedWrapper(g, first, G_ENTRY);
    BindingsConcat(inner, [Def(G_ENTRY, WRAPPER)]);
    RenamePlain(second, D_ENTRY);
    RenamePlain(second, G_ENTRY);
    BindingsConcat(Rename(host, G_ENTRY) + Rename(second, D_ENTRY), [Def(ENTRY, WRAPPER)]);
    BindingsConcat(Rename(host, G_ENTRY), Rename(second, D_ENTRY));
  }

  lemma {:induction false} CallsItself(b: map<string, Term>, fuel: nat)
    requires G_ENTRY in b && b[G_ENTRY] == WRAPPER
    ensures Call(b, G_ENTRY, fuel) == None
  {
    CallUnfolds(b, G_ENTRY, fuel);
    if fuel > 0 {
      CallsItself(b, fuel - 1);
    }
  }

  /** What the hook has made of `g` after composing it with each of `ds` in turn. */
  function Built(g: Code, ds: seq<Code>): Code {
    if ds == [] then g else Compose(Built(g, ds[..|ds| - 1]), ds[|ds| - 1])
  }

  predicate AllPlain(ds: seq<Code>) { forall i :: 0 <= i < |ds| ==> Plain(ds[i]) }

  lemma {:induction false} BuiltHasOneEntry(g: Code, ds: seq<Code>)
    requires Plain(g) && AllPlain(ds)
    ensures OneEntry(Built(g, ds))
  {
    if ds == [] {
    } else {
      BuiltHasOneEntry(g, ds[..|ds| - 1]);
      RenamedWrapper(Built(g, ds[..|ds| - 1]), ds[|ds| - 1], ENTRY);
    }
  }

  /** A composition that is composed again, however it was built, never computes
      anything: the wrapper inside it becomes the `_g_entrypoint` that it calls. */
  lemma {:induction false} RecompositionNeverReturns(g: Code, ds: seq<Code>, d: Code, fuel: nat)
    requires Plain(g) && AllPlain(ds) && Plain(d) && ds != []
    ensures Run(Compose(Built(g, ds), d), fuel) == None
  {
    var before, last := Built(g, ds[..|ds| - 1]), ds[|ds| - 1];
    var c := Bindings(Compose(Compose(before, last), d));
    BuiltHasOneEntry(g, ds[..|ds| - 1]);
    RecomposedBindings(before, last, d);
    CallUnfolds(c, ENTRY, fuel);
    if fuel > 0 {
      CallsItself(c, fuel - 1);
    }
  }

  /** So composing what the hook has built before is right only where D applied
      to it never returns, as it never does from the second composition on. */
  lemma {:induction false} RecompositionIsWrong(g: Code, ds: seq<Code>, d: Code)
    requires Plain(g) && AllPlain(ds) && Plain(d) && ds != []
    ensures Composes(Built(g, ds), d) <==> forall fuel: nat :: Intended(Built(g, ds), d, fuel) == None
    ensures |ds| > 1 ==> forall fuel: nat :: Intended(Built(g, ds), d, fuel) == None
  {
    var host := Built(g, ds);
    forall fuel: nat
      ensures Run(Compose(host, d), fuel + 1) == Intended(host, d, fuel) <==> Intended(host, d, fuel) == None
    {
      RecompositionNeverReturns(g, ds, d, fuel + 1);
    }
    if |ds| > 1 {
      forall fuel: nat
        ensures Intended(Built(g, ds), d, fuel) == None
      {
        RecompositionNeverReturns(g, ds[..|ds| - 1], ds[|ds| - 1], fuel);
      }
    }
  }

  // ----- inputs that fail -----

  const IDENTITY := Def("id", Argument)

  /** How a composition and the application run when all four bodies are this simple. */
  lemma {:induction false} SimpleRuns(g: Code, d: Code, inside: int, alone: int)
    requires var c := Bindings(Compose(g, d));
      && {ENTRY, G_ENTRY, D_ENTRY, "id"} <= c.Keys && c[ENTRY] == WRAPPER
      && c[G_ENTRY] == Number(inside) && c[D_ENTRY] == Name("id") && c["id"] == Argument
    requires ENTRY in Bindings(g) && Bindings(g)[ENTRY] == Number(alone)
    requires {ENTRY, "id"} <= Bindings(d).Keys && Bindings(d)[ENTRY] == Name("id") && Bindings(d)["id"] == Argument
    ensures ComputesData(g)
    ensures Run(Compose(g, d), 3) == Some(Data(inside)) && Intended(g, d, 2) == Some(Data(alone))
    ensures inside != alone ==> !Composes(g, d)
  {
    var c := Bindings(Compose(g, d));
    forall fuel: nat
      ensures Run(g, fuel).Some? ==> Run(g, fuel).value.Data?
    {
      CallUnfolds(Bindings(g), ENTRY, fuel);
    }
    WrapperRuns(c, 2);
    CallUnfolds(c, G_ENTRY, 2);
    CallUnfolds(c, D_ENTRY, 2);
    CallUnfolds(Bindings(g), ENTRY, 2);
    CallUnfolds(Bindings(d), ENTRY, 2);
    assert Run(Compose(g, d), 2 + 1) == Some(Data(inside));
  }

  const CALLS_HELPER: Code := [Def("helper", Number(1)), Def(ENTRY, Apply(Name("helper"), Number(0)))]
  const OTHER_HELPER: Code := [Def("helper", Number(2)), IDENTITY, Def(ENTRY, Name("id"))]

  /** Two modules with a helper of the same name: both plain, G computes data and
      has never been composed, and still D's helper answers for G's. */
  lemma {:induction false} HelpersClash(fuel: nat)
    requires fuel >= 3
    ensures Plain(CALLS_HELPER) && Plain(OTHER_HELPER) && G_ENTRY !in Bindings(CALLS_HELPER)
    ensures Run(Compose(CALLS_HELPER, OTHER_HELPER), fuel + 1) == Some(Data(2))
    ensures Intended(CALLS_HELPER, OTHER_HELPER, fuel) == Some(Data(1))
  {
    var g, d := CALLS_HELPER, OTHER_HELPER;
    BindingsOfTwo(g[0], g[1]);
    BindingsOfThree(d[0], d[1], d[2]);
    ComposedBindings(g, d);
    var c := Bindings(Compose(g, d));
    HelperRuns(c, G_ENTRY, "helper", fuel);
    HelperRuns(Bindings(g), ENTRY, "helper", fuel);
    CallableRuns(c, D_ENTRY, "id", fuel);
    CallableRuns(Bindings(d), ENTRY, "id", fuel);
    WrapperRuns(c, fuel);
  }

  lemma {:induction false} BindingsOfThree(x: Def, y: Def, z: Def)
    ensures Bindings([x, y, z]) == map[x.name := x.body][y.name := y.body][z.name := z.body]
  {
    assert [x, y, z] == [x] + ([y] + [z]);
    BindingsConcat([x], [y] + [z]);
    BindingsConcat([y], [z]);
  }

  lemma {:induction false} BindingsOfFive(v: Def, w: Def, x: Def, y: Def, z: Def)
    ensures Bindings([v, w, x, y, z]) == map[v.name := v.body][w.name := w.body][x.name := x.body][y.name := y.body][z.name := z.body]
  {
    assert [v, w, x, y, z] == [v, w, x] + ([y] + [z]);
    BindingsOfThree(v, w, x);
    BindingsConcat([v, w, x], [y] + [z]);
    BindingsConcat([y], [z]);
  }

  lemma {:induction false} BindingsOfTwo(x: Def, y: Def)
    ensures Bindings([x, y]) == map[x.name := x.body][y.name := y.body]
  {
    assert [x, y] == [x] + [y];
    BindingsConcat([x], [y]);
  }

  const CALLS_IDENTITY: Code := [IDENTITY, Def(ENTRY, Name("id"))]

  /** Being plain matters. Of two entry points the renaming reaches the first,
      while the module on its own runs the second. */
  lemma {:induction false} SecondEntryPoint()
    ensures var g := [Def(ENTRY, Number(1)), Def(ENTRY, Number(2))];
      ComputesData(g) && Plain(CALLS_IDENTITY) && !Composes(g, CALLS_IDENTITY)
  {
    var g, d := [Def(ENTRY, Number(1)), Def(ENTRY, Number(2))], CALLS_IDENTITY;
    assert d[1].name == ENTRY;
    RenameAt(g, 0, G_ENTRY);
    RenameAt(d, 1, D_ENTRY);
    assert Compose(g, d) == [Def(G_ENTRY, Number(1)), g[1], IDENTITY, Def(D_ENTRY, Name("id")), Def(ENTRY, WRAPPER)];
    BindingsOfFive(Def(G_ENTRY, Number(1)), g[1], IDENTITY, Def(D_ENTRY, Name("id")), Def(ENTRY, WRAPPER));
    BindingsOfTwo(g[0], g[1]);
    BindingsOfTwo(d[0], d[1]);
    SimpleRuns(g, d, 1, 2);
  }

  /** A later `_g_entrypoint` replaces G's renamed entry point, be it G's own. */
  lemma {:induction false} OwnWrapperName()
    ensures var g := [Def(ENTRY, Number(1)), Def(G_ENTRY, Number(2))];
      ComputesData(g) && Plain(CALLS_IDENTITY) && !Composes(g, CALLS_IDENTITY)
  {
    var g, d := [Def(ENTRY, Number(1)), Def(G_ENTRY, Number(2))], CALLS_IDENTITY;
    assert d[1].name == ENTRY;
    RenameAt(g, 0, G_ENTRY);
    RenameAt(d, 1, D_ENTRY);
    assert Compose(g, d) == [Def(G_ENTRY, Number(1)), g[1], IDENTITY, Def(D_ENTRY, Name("id")), Def(ENTRY, WRAPPER)];
    BindingsOfFive(Def(G_ENTRY, Number(1)), g[1], IDENTITY, Def(D_ENTRY, Name("id")), Def(ENTRY, WRAPPER));
    BindingsOfTwo(g[0], g[1]);
    BindingsOfTwo(d[0], d[1]);
    SimpleRuns(g, d, 2, 1);
  }

  /** Or D's. */
  lemma {:induction false} OtherWrapperName()
    ensures var g, d := [Def(ENTRY, Number(1))], [Def(G_ENTRY, Number(2)), IDENTITY, Def(ENTRY, Name("id"))];
      Plain(g) && ComputesData(g) && !Composes(g, d)
  {
    var g, d := [Def(ENTRY, Number(1))], [Def(G_ENTRY, Number(2)), IDENTITY, Def(ENTRY, Name("id"))];
    assert g[0].name == ENTRY;
    RenameAt(g, 0, G_ENTRY);
    RenameAt(d, 2, D_ENTRY);
    assert Compose(g, d) == [Def(G_ENTRY, Number(1)), d[0], IDENTITY, Def(D_ENTRY, Name("id")), Def(ENTRY, WRAPPER)];
    BindingsOfFive(Def(G_ENTRY, Number(1)), d[0], IDENTITY, Def(D_ENTRY, Name("id")), Def(ENTRY, WRAPPER));
    BindingsOfThree(d[0], d[1], d[2]);
    SimpleRuns(g, d, 2, 1);
  }

  /** A D that returns its own entry point returns the wrapper instead. */
  lemma {:induction false} NamedEntryPoint()
    ensures var g, d := [Def(ENTRY, Number(1))], [Def(ENTRY, Name(ENTRY))];
      Plain(g) && ComputesData(g) && !Composes(g, d)
  {
    var g, d := [Def(ENTRY, Number(1))], [Def(ENTRY, Name(ENTRY))];
    assert g[0].name == ENTRY;
    RenameAt(g, 0, G_ENTRY);
    RenameAt(d, 0, D_ENTRY);
    assert Compose(g, d) == [Def(G_ENTRY, Number(1)), Def(D_ENTRY, Name(ENTRY)), Def(ENTRY, WRAPPER)];
    BindingsOfThree(Def(G_ENTRY, Number(1)), Def(D_ENTRY, Name(ENTRY)), Def(ENTRY, WRAPPER));
    var c := Bindings(Compose(g, d));
    forall fuel: nat
      ensures Run(g, fuel).Some? ==> Run(g, fuel).value.Data?
    {
      CallUnfolds(Bindings(g), ENTRY, fuel);
    }
    WrapperRuns(c, 1);
    CallUnfolds(c, G_ENTRY, 1);
    CallUnfolds(c, D_ENTRY, 1);
    CallUnfolds(Bindings(g), ENTRY, 1);
    CallUnfolds(Bindings(d), ENTRY, 1);
    assert Run(Compose(g, d), 1 + 1) == None;
    assert Intended(g, d, 1) == Some(Function(ENTRY));
  }
}
