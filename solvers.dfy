/**
 * The incremental SMT solver every engine drives. The backend is a deterministic
 * oracle: it replays a finite tape of answers, one per satisfiability check, and
 * answers `Unknown` without a model once the tape is used up (a solver giving up).
 * Every command it receives is recorded, with the answer for each check.
 */
module Solvers {
  import opened Collections
  import opened Lustre

  /** Backend symbols. `Stream(id, k)` is `StreamIndex(id, k).getEncoded()`; `ActLit(n)` the activation literal guarding unit `n`. */
  datatype Symbol = Stream(id: Id, step: int) | ActLit(name: Id) | Init

  /** A solver model: values of the declared symbols. */
  type Model = map<Symbol, Value>

  /** Backend terms. `At(e, k)` is expression `e` encoded at step `k` (`Lustre2Sexp(k)`). */
  datatype Term =
    | Sym(s: Symbol)
    | BoolLit(b: bool)
    | At(e: Expr, step: int)
    | And(conjuncts: seq<Term>)
    | Implies(hyp: Term, conc: Term)
    | Apply(relation: string, args: seq<Term>)
    | TypeConstraintAt(id: Id, typ: LType, step: int)

  datatype Decl = Decl(sym: Symbol, typ: LType)

  datatype SolverResult = Sat(model: Option<Model>) | Unsat(core: seq<Symbol>) | Unknown(model: Option<Model>)

  datatype Command =
    | Define(decl: Decl)
    | DefineRelation(name: string)
    | Assert(t: Term)
    | Push
    | Pop
    | Query(t: Term, answer: SolverResult)
    | QuickCheckSat(lits: seq<Symbol>, answer: SolverResult)
    | UnsatQuery(lits: seq<Symbol>, t: Term, answer: SolverResult)

  /** `StreamIndex.conjoinEncodings(ids, k)`. */
  function ConjoinEncodings(ids: seq<Id>, k: int): Term {
    And(seq(|ids|, i requires 0 <= i < |ids| => Sym(Stream(ids[i], k))))
  }

  /** `SexpUtil.conjoinInvariants(exprs, k)`. */
  function ConjoinInvariants(exprs: seq<Expr>, k: int): Term {
    And(seq(|exprs|, i requires 0 <= i < |exprs| => At(exprs[i], k)))
  }

  /** The answer the oracle gives next. */
  function NextAnswer(tape: seq<SolverResult>): SolverResult {
    if tape == [] then Unknown(None) else tape[0]
  }

  function RestOfTape(tape: seq<SolverResult>): (r: seq<SolverResult>)
    ensures tape != [] ==> |r| == |tape| - 1
  {
    if tape == [] then [] else tape[1..]
  }

  /** Only activation literals that were named in the check can be in its core. */
  function CoreWithin(core: seq<Symbol>, lits: seq<Symbol>): (r: seq<Symbol>)
    ensures forall s :: s in r ==> s in lits && s in core
  {
    RetainAll(core, lits)
  }

  /**
   * `query`: the model is extracted on SAT and on UNKNOWN (an answer recorded without one
   * reads as the empty model), and an UNSAT answer carries no core.
   */
  function AsQueryResult(raw: SolverResult): (r: SolverResult)
    ensures r.Sat? == raw.Sat? && r.Unsat? == raw.Unsat? && r.Unknown? == raw.Unknown?
    ensures !r.Unsat? ==> r.model.Some?
    ensures r.Unsat? ==> r.core == []
  {
    match raw
    case Sat(m) => Sat(Some(m.GetOr(map[])))
    case Unsat(_) => Unsat([])
    case Unknown(m) => Unknown(Some(m.GetOr(map[])))
  }

  /** `quickCheckSat`: never a model; on UNSAT the named literals in the core. */
  function AsCheckResult(raw: SolverResult, lits: seq<Symbol>): (r: SolverResult)
    ensures r.Sat? == raw.Sat? && r.Unsat? == raw.Unsat? && r.Unknown? == raw.Unknown?
    ensures !r.Unsat? ==> r.model == None
    ensures r.Unsat? ==> forall s :: s in r.core ==> s in lits
  {
    match raw
    case Sat(_) => Sat(None)
    case Unsat(core) => Unsat(CoreWithin(core, lits))
    case Unknown(_) => Unknown(None)
  }

  /** `unsatQuery`: a model when the backend gives one; on UNSAT the named literals in the core. */
  function AsCoreQueryResult(raw: SolverResult, lits: seq<Symbol>): (r: SolverResult)
    ensures r.Sat? == raw.Sat? && r.Unsat? == raw.Unsat? && r.Unknown? == raw.Unknown?
    ensures !r.Unsat? ==> r.model == raw.model
    ensures r.Unsat? ==> forall s :: s in r.core ==> s in lits
  {
    match raw
    case Unsat(core) => Unsat(CoreWithin(core, lits))
    case _ => raw
  }

  class Solver {
    /** Answers still to be given, in order. */
    var tape: seq<SolverResult>
    /** Every command received, in order. */
    var log: seq<Command>
    /** Number of scopes pushed and not yet popped. */
    ghost var depth: nat

    constructor (answers: seq<SolverResult>)
      ensures tape == answers && log == [] && depth == 0
    {
      tape := answers;
      log := [];
      depth := 0;
    }

    method DefineVar(d: Decl)
      modifies this
      ensures log == old(log) + [Command.Define(d)] && tape == old(tape) && depth == old(depth)
    {
      log := log + [Command.Define(d)];
    }

    method DefineRel(name: string)
      modifies this
      ensures log == old(log) + [Command.DefineRelation(name)] && tape == old(tape) && depth == old(depth)
    {
      log := log + [Command.DefineRelation(name)];
    }

    method AssertTerm(t: Term)
      modifies this
      ensures log == old(log) + [Assert(t)] && tape == old(tape) && depth == old(depth)
    {
      log := log + [Assert(t)];
    }

    method PushScope()
      modifies this
      ensures log == old(log) + [Push] && tape == old(tape) && depth == old(depth) + 1
    {
      log := log + [Push];
      depth := depth + 1;
    }

    method PopScope()
      requires depth > 0
      modifies this
      ensures log == old(log) + [Pop] && tape == old(tape) && depth == old(depth) - 1
    {
      log := log + [Pop];
      depth := depth - 1;
    }

    /** Checks the negation of `t` inside its own push/pop (SmtInterpolSolver.query). */
    method CheckQuery(t: Term) returns (r: SolverResult)
      modifies this
      ensures r == AsQueryResult(NextAnswer(old(tape)))
      ensures tape == RestOfTape(old(tape)) && depth == old(depth)
      ensures log == old(log) + [Query(t, r)]
    {
      r := AsQueryResult(NextAnswer(tape));
      tape := RestOfTape(tape);
      log := log + [Query(t, r)];
    }

    /** Checks the current constraints with the named activation literals (quickCheckSat). */
    method CheckQuick(lits: seq<Symbol>) returns (r: SolverResult)
      modifies this
      ensures r == AsCheckResult(NextAnswer(old(tape)), lits)
      ensures tape == RestOfTape(old(tape)) && depth == old(depth)
      ensures log == old(log) + [QuickCheckSat(lits, r)]
    {
      r := AsCheckResult(NextAnswer(tape), lits);
      tape := RestOfTape(tape);
      log := log + [QuickCheckSat(lits, r)];
    }

    /** Checks the negation of `t` with the named activation literals (unsatQuery). */
    method CheckUnsatQuery(lits: seq<Symbol>, t: Term) returns (r: SolverResult)
      modifies this
      ensures r == AsCoreQueryResult(NextAnswer(old(tape)), lits)
      ensures tape == RestOfTape(old(tape)) && depth == old(depth)
      ensures log == old(log) + [UnsatQuery(lits, t, r)]
    {
      r := AsCoreQueryResult(NextAnswer(tape), lits);
      tape := RestOfTape(tape);
      log := log + [UnsatQuery(lits, t, r)];
    }
  }
}
