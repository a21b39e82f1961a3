/**
 * What every solver-based engine does to unroll the transition system: declare the
 * step-k copy of each variable with its type constraint, and call the transition
 * relation on the variables of two consecutive steps.
 */
module EngineBase {
  import opened Lustre
  import opened Collections
  import opened Solvers

  /** `getOffsetVarDecls(k)`: the step-`k` symbol of every variable, with the variable's type. */
  function OffsetVarDecls(vars: seq<VarDecl>, k: int): (r: seq<Decl>)
    ensures |r| == |vars|
    ensures forall i :: 0 <= i < |vars| ==> r[i] == Decl(Stream(vars[i].id, k), vars[i].typ)
  {
    if vars == [] then [] else [Decl(Stream(vars[0].id, k), vars[0].typ)] + OffsetVarDecls(vars[1..], k)
  }

  /** `getSymbols(decls)`. */
  function Symbols(decls: seq<Decl>): (r: seq<Term>)
    ensures |r| == |decls|
    ensures forall i :: 0 <= i < |decls| ==> r[i] == Sym(decls[i].sym)
  {
    if decls == [] then [] else [Sym(decls[0].sym)] + Symbols(decls[1..])
  }

  /** `getTransition(k, init)`: the transition relation applied to `init` and two groups of step variables. */
  function GetTransition(relation: string, vars: seq<VarDecl>, k: int, init: Term): (t: Term)
    ensures t.Apply? && t.relation == relation
    ensures |t.args| == 1 + 2 * |vars| && t.args[0] == init
  {
    Apply(relation, [init] + Symbols(OffsetVarDecls(vars, k - 1)) + Symbols(OffsetVarDecls(vars, k)))
  }

  /**
   * The arguments after `init` are the step `k-1` variables and then the step `k` variables,
   * each group in declaration order.
   */
  lemma GetTransitionArgs(relation: string, vars: seq<VarDecl>, k: int, init: Term)
    ensures var t := GetTransition(relation, vars, k, init);
      && (forall i :: 0 <= i < |vars| ==> t.args[1 + i] == Sym(Stream(vars[i].id, k - 1)))
      && (forall i :: 0 <= i < |vars| ==> t.args[1 + |vars| + i] == Sym(Stream(vars[i].id, k)))
  {
    var before := Symbols(OffsetVarDecls(vars, k - 1));
    var after := Symbols(OffsetVarDecls(vars, k));
    var args := GetTransition(relation, vars, k, init).args;
    assert args == [init] + before + after;
    forall i | 0 <= i < |vars|
      ensures args[1 + i] == Sym(Stream(vars[i].id, k - 1))
    {
      assert args[1 + i] == before[i];
    }
    forall i | 0 <= i < |vars|
      ensures args[1 + |vars| + i] == Sym(Stream(vars[i].id, k))
    {
      assert args[1 + |vars| + i] == after[i];
    }
  }

  /** `getBaseTransition(k)`: only step 0 may be initial. */
  function BaseTransition(relation: string, vars: seq<VarDecl>, k: int): Term {
    GetTransition(relation, vars, k, BoolLit(k == 0))
  }

  /** `getInductiveTransition(k)`: step 0 leaves initiality open (the INIT symbol), later steps are not initial. */
  function InductiveTransition(relation: string, vars: seq<VarDecl>, k: int): Term {
    if k == 0 then GetTransition(relation, vars, 0, Sym(Init)) else GetTransition(relation, vars, k, BoolLit(false))
  }

  function DefineAll(decls: seq<Decl>): (r: seq<Command>)
    ensures |r| == |decls|
    ensures forall i :: 0 <= i < |decls| ==> r[i] == Command.Define(decls[i])
  {
    if decls == [] then [] else DefineAll(decls[..|decls| - 1]) + [Command.Define(decls[|decls| - 1])]
  }

  /** The type-constraint assertions at step `k`, for the variables whose type has one. */
  function ConstraintAsserts(vars: seq<VarDecl>, k: int): (r: seq<Command>)
    ensures |r| <= |vars|
  {
    if vars == [] then []
    else
      var v := vars[|vars| - 1];
      ConstraintAsserts(vars[..|vars| - 1], k)
        + (if HasTypeConstraint(v.typ) then [Assert(TypeConstraintAt(v.id, v.typ, k))] else [])
  }

  /** Only variables whose type has a constraint get an assertion, and it is their constraint at step `k`. */
  lemma {:induction false} ConstraintAssertsSound(vars: seq<VarDecl>, k: int, c: Command)
    requires c in ConstraintAsserts(vars, k)
    ensures exists v :: v in vars && HasTypeConstraint(v.typ) && c == Assert(TypeConstraintAt(v.id, v.typ, k))
  {
    var v := vars[|vars| - 1];
    if c in ConstraintAsserts(vars[..|vars| - 1], k) {
      ConstraintAssertsSound(vars[..|vars| - 1], k, c);
      var w :| w in vars[..|vars| - 1] && HasTypeConstraint(w.typ) && c == Assert(TypeConstraintAt(w.id, w.typ, k));
      assert w in vars;
    } else {
      assert v in vars;
    }
  }

  /** The commands `createVariables(k)` sends. */
  function CreateVariablesCommands(vars: seq<VarDecl>, k: int): seq<Command> {
    DefineAll(OffsetVarDecls(vars, k)) + ConstraintAsserts(vars, k)
  }

  lemma DefineAllStep(decls: seq<Decl>, i: nat)
    requires i < |decls|
    ensures DefineAll(decls[..i + 1]) == DefineAll(decls[..i]) + [Command.Define(decls[i])]
  {
    assert decls[..i + 1][..i] == decls[..i];
  }

  lemma ConstraintAssertsStep(vars: seq<VarDecl>, k: int, j: nat)
    requires j < |vars|
    ensures ConstraintAsserts(vars[..j + 1], k) == ConstraintAsserts(vars[..j], k)
      + (if HasTypeConstraint(vars[j].typ) then [Assert(TypeConstraintAt(vars[j].id, vars[j].typ, k))] else [])
  {
    assert vars[..j + 1][..j] == vars[..j];
  }

  /** Declares each of `decls`, in order. */
  method DefineDecls(solver: Solver, decls: seq<Decl>)
    modifies solver
    ensures solver.log == old(solver.log) + DefineAll(decls)
    ensures solver.tape == old(solver.tape) && solver.depth == old(solver.depth)
  {
    var i := 0;
    while i < |decls|
      invariant 0 <= i <= |decls|
      invariant solver.log == old(solver.log) + DefineAll(decls[..i])
      invariant solver.tape == old(solver.tape) && solver.depth == old(solver.depth)
    {
      DefineAllStep(decls, i);
      AppendAssoc(old(solver.log), DefineAll(decls[..i]), [Command.Define(decls[i])]);
      solver.DefineVar(decls[i]);
      i := i + 1;
    }
    assert decls[..i] == decls;
  }

  /** `createVariables(k)`: declares the step-`k` variables, then asserts their type constraints. */
  method CreateVariables(solver: Solver, vars: seq<VarDecl>, k: int)
    modifies solver
    ensures solver.log == old(solver.log) + CreateVariablesCommands(vars, k)
    ensures solver.tape == old(solver.tape) && solver.depth == old(solver.depth)
  {
    DefineDecls(solver, OffsetVarDecls(vars, k));
    ghost var defined := solver.log;
    var j := 0;
    while j < |vars|
      invariant 0 <= j <= |vars|
      invariant solver.log == defined + ConstraintAsserts(vars[..j], k)
      invariant solver.tape == old(solver.tape) && solver.depth == old(solver.depth)
    {
      var v := vars[j];
      ConstraintAssertsStep(vars, k, j);
      if HasTypeConstraint(v.typ) {
        AppendAssoc(defined, ConstraintAsserts(vars[..j], k), [Assert(TypeConstraintAt(v.id, v.typ, k))]);
        solver.AssertTerm(TypeConstraintAt(v.id, v.typ, k));
      }
      j := j + 1;
    }
    assert vars[..j] == vars;
    AppendAssoc(old(solver.log), DefineAll(OffsetVarDecls(vars, k)), ConstraintAsserts(vars, k));
  }
}
