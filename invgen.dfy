/**
 * The invariant-generation engine. A candidate invariant (a conjunction of clauses) is
 * refined in two phases per step k: a base step that drops the clauses some path of
 * length k-1 falsifies, and an inductive step, on a copy, that drops the clauses that are
 * not k-inductive. What survives the inductive step is proven: it is added to the proven
 * invariants, announced, and promoted to Valid when it names a pending property.
 * The engine stops cooperatively once no property is pending, or when the solver gives up
 * during a base step.
 */
module InvariantGeneration {
  import opened Collections
  import opened Lustre
  import opened Solvers
  import opened Messages
  import opened EngineBase

  /**
   * `ModelEvaluator(model, k)` applied to a candidate clause: the model gives the clause's
   * value at step `k` under its printed form; a clause the model says nothing about holds.
   */
  predicate Holds(m: Model, k: int, e: Expr) {
    !(Stream(ExprText(e), k) in m && m[Stream(ExprText(e), k)] == BooleanValue(false))
  }

  /** `StructuredInvariant.refine(eval)`: the clauses the model does not falsify at step `k`, in order. */
  function Refined(clauses: seq<Expr>, m: Model, k: int): (r: seq<Expr>)
    ensures forall e :: e in r <==> e in clauses && Holds(m, k, e)
    ensures multiset(r) <= multiset(clauses)
    ensures Subsequence(r, clauses)
  {
    if clauses == [] then []
    else
      assert clauses == [clauses[0]] + clauses[1..];
      var tail := Refined(clauses[1..], m, k);
      if Holds(m, k, clauses[0]) then [clauses[0]] + tail else tail
  }

  /** Refining again with the same model changes nothing. */
  lemma {:induction false} RefinedIdempotent(clauses: seq<Expr>, m: Model, k: int)
    ensures Refined(Refined(clauses, m, k), m, k) == Refined(clauses, m, k)
  {
    if clauses != [] {
      RefinedIdempotent(clauses[1..], m, k);
    }
  }

  /** A candidate invariant: the conjunction of its clauses. It is trivial when no clause is left. */
  class StructuredInvariant {
    var clauses: seq<Expr>

    constructor (clauses: seq<Expr>)
      ensures this.clauses == clauses
    {
      this.clauses := clauses;
    }

    predicate IsTrivial()
      reads this
    {
      clauses == []
    }

    /** `copy()`: a new candidate with the same clauses, sharing nothing with this one. */
    method Copy() returns (c: StructuredInvariant)
      ensures fresh(c) && c.clauses == clauses
    {
      c := new StructuredInvariant(clauses);
    }

    /** `refine(new ModelEvaluator(m, k))`. */
    method Refine(m: Model, k: int)
      modifies this
      ensures clauses == Refined(old(clauses), m, k)
    {
      clauses := Refined(clauses, m, k);
    }

    /** `reduceProven(proven)`: drops the clauses the other candidate has proven. */
    method ReduceProven(proven: StructuredInvariant)
      modifies this
      ensures clauses == RemoveAll(old(clauses), old(proven.clauses))
    {
      clauses := RemoveAll(clauses, proven.clauses);
    }
  }

  /**
   * `getInductiveQuery(k, invariant)`: the candidate at steps 0 .. k-1 implies the candidate at step k.
   */
  function InductiveQuery(k: nat, exprs: seq<Expr>): Term {
    Implies(And(seq(k, i requires 0 <= i < k => ConjoinInvariants(exprs, i))), ConjoinInvariants(exprs, k))
  }

  /** The query has exactly `k` hypotheses, the candidate at steps 0 .. k-1, and concludes the candidate at step `k`. */
  lemma InductiveQueryShape(k: nat, exprs: seq<Expr>)
    ensures var q := InductiveQuery(k, exprs);
      && q.Implies? && q.hyp.And? && |q.hyp.conjuncts| == k
      && (forall i :: 0 <= i < k ==> q.hyp.conjuncts[i] == ConjoinInvariants(exprs, i))
      && q.conc == ConjoinInvariants(exprs, k)
  {
  }

  /** Going one step deeper turns the conclusion into the last hypothesis. */
  lemma InductiveQueryNext(k: nat, exprs: seq<Expr>)
    ensures InductiveQuery(k + 1, exprs).hyp.conjuncts
         == InductiveQuery(k, exprs).hyp.conjuncts + [InductiveQuery(k, exprs).conc]
  {
    var a := InductiveQuery(k + 1, exprs).hyp.conjuncts;
    var b := InductiveQuery(k, exprs).hyp.conjuncts + [InductiveQuery(k, exprs).conc];
    assert |a| == |b|;
    forall i | 0 <= i < |a|
      ensures a[i] == b[i]
    {
    }
  }

  /** The properties a message settles for this engine: Valid, Invalid and Unknown all do. */
  function Drops(m: Message): seq<Id> {
    match m
    case ValidMessage(_, valid, _, _, _, _) => valid
    case InvalidMessage(_, invalid, _, _, _) => invalid
    case UnknownMessage(_, unknown) => unknown
    case _ => []
  }

  /** The pending list after one message: the handlers only ever remove. */
  function AfterMessage(pending: seq<Id>, m: Message): (r: seq<Id>)
    ensures multiset(r) <= multiset(pending)
    ensures forall p :: p in r <==> p in pending && p !in Drops(m)
  {
    RemoveAll(pending, Drops(m))
  }

  /** Receiving the same message twice has the effect of receiving it once. */
  lemma AfterMessageIdempotent(pending: seq<Id>, m: Message)
    ensures AfterMessage(AfterMessage(pending, m), m) == AfterMessage(pending, m)
  {
    RemoveAllIdempotent(pending, Drops(m));
  }

  /** The pending list after a batch of messages, handled in order. */
  function AfterBatch(pending: seq<Id>, batch: seq<Message>): (r: seq<Id>)
    ensures multiset(r) <= multiset(pending)
  {
    if batch == [] then pending else AfterMessage(AfterBatch(pending, batch[..|batch| - 1]), batch[|batch| - 1])
  }

  lemma BatchStep(pending: seq<Id>, batch: seq<Message>, i: nat)
    requires i < |batch|
    ensures AfterBatch(pending, batch[..i + 1]) == AfterMessage(AfterBatch(pending, batch[..i]), batch[i])
  {
    assert batch[..i + 1][..i] == batch[..i];
  }

  /** The next batch of incoming messages, and what is left after it. */
  function NextBatch(inbox: seq<seq<Message>>): seq<Message> {
    if inbox == [] then [] else inbox[0]
  }

  function LaterBatches(inbox: seq<seq<Message>>): seq<seq<Message>> {
    if inbox == [] then [] else inbox[1..]
  }

  /** What one pass of a refinement `do ... while` leaves behind. */
  datatype Pass = Pass(
    clauses: seq<Expr>,
    pending: seq<Id>,
    inbox: seq<seq<Message>>,
    tape: seq<SolverResult>,
    asked: seq<Command>,
    answer: Option<SolverResult>,
    stopped: bool,
    again: bool)

  /** The query of a refinement pass: the candidate at `k` (base) or its k-inductiveness. */
  function RefineQuery(base: bool, k: nat, clauses: seq<Expr>): Term {
    if base then ConjoinInvariants(clauses, k) else InductiveQuery(k, clauses)
  }

  /**
   * One pass of the `do ... while` of `refineBaseStep` (`base`) or `refineInductiveStep`:
   * `checkForStop()` drains a batch and stops if nothing is pending; otherwise one query;
   * Sat refines the candidate; Unknown stops the engine in the base step only; the loop
   * goes round again on Sat while the candidate is not trivial.
   */
  function RefinePass(base: bool, k: nat, clauses: seq<Expr>, pending: seq<Id>,
                      inbox: seq<seq<Message>>, tape: seq<SolverResult>): (p: Pass)
    ensures p.again ==> tape != [] && |p.tape| < |tape|
    ensures p.stopped ==> !p.again
  {
    var drained := AfterBatch(pending, NextBatch(inbox));
    var later := LaterBatches(inbox);
    if drained == [] then Pass(clauses, drained, later, tape, [], None, true, false)
    else
      var r := AsQueryResult(NextAnswer(tape));
      var asked := [Query(RefineQuery(base, k, clauses), r)];
      var rest := RestOfTape(tape);
      if r.Sat? then
        var refined := Refined(clauses, r.model.value, k);
        Pass(refined, drained, later, rest, asked, Some(r), false, refined != [])
      else
        Pass(clauses, drained, later, rest, asked, Some(r), base && r.Unknown?, false)
  }

  /** What a whole refinement loop leaves behind. */
  datatype Refinement = Refinement(
    clauses: seq<Expr>,
    pending: seq<Id>,
    inbox: seq<seq<Message>>,
    tape: seq<SolverResult>,
    asked: seq<Command>,
    /** The answer to the last query, if one was asked. */
    answer: Option<SolverResult>,
    stopped: bool)

  function RefineLoop(base: bool, k: nat, clauses: seq<Expr>, pending: seq<Id>,
                      inbox: seq<seq<Message>>, tape: seq<SolverResult>): Refinement
    decreases |tape|
  {
    var p := RefinePass(base, k, clauses, pending, inbox, tape);
    if !p.again then Refinement(p.clauses, p.pending, p.inbox, p.tape, p.asked, p.answer, p.stopped)
    else
      var o := RefineLoop(base, k, p.clauses, p.pending, p.inbox, p.tape);
      o.(asked := p.asked + o.asked)
  }

  lemma RefineLoopUnfold(base: bool, k: nat, clauses: seq<Expr>, pending: seq<Id>,
                         inbox: seq<seq<Message>>, tape: seq<SolverResult>)
    ensures var p := RefinePass(base, k, clauses, pending, inbox, tape);
      RefineLoop(base, k, clauses, pending, inbox, tape)
        == if p.again then RefineLoop(base, k, p.clauses, p.pending, p.inbox, p.tape).(asked := p.asked + RefineLoop(base, k, p.clauses, p.pending, p.inbox, p.tape).asked)
           else Refinement(p.clauses, p.pending, p.inbox, p.tape, p.asked, p.answer, p.stopped)
  {
  }

  /**
   * Refinement only drops clauses, keeping the order of the rest, and the pending list
   * never grows.
   */
  lemma {:induction false} RefineLoopShrinks(base: bool, k: nat, clauses: seq<Expr>, pending: seq<Id>,
                                             inbox: seq<seq<Message>>, tape: seq<SolverResult>)
    ensures var o := RefineLoop(base, k, clauses, pending, inbox, tape);
      multiset(o.clauses) <= multiset(clauses) && multiset(o.pending) <= multiset(pending)
    decreases |tape|
  {
    var p := RefinePass(base, k, clauses, pending, inbox, tape);
    if p.again {
      RefineLoopShrinks(base, k, p.clauses, p.pending, p.inbox, p.tape);
      var o := RefineLoop(base, k, p.clauses, p.pending, p.inbox, p.tape);
      ShrinkTrans(o.clauses, p.clauses, clauses);
      ShrinkTrans(o.pending, p.pending, pending);
    }
  }

  /**
   * How a refinement loop ends. It stops the engine only when nothing is pending any more,
   * or, in the base step, when the solver answered Unknown. Otherwise either nothing of the
   * candidate is left, or the last query was not answered Sat: Unsat, or (inductive step
   * only) Unknown; and an answer other than Sat was given to the query about exactly the
   * remaining candidate.
   */
  lemma {:induction false} RefineLoopEnds(base: bool, k: nat, clauses: seq<Expr>, pending: seq<Id>,
                                          inbox: seq<seq<Message>>, tape: seq<SolverResult>)
    ensures var o := RefineLoop(base, k, clauses, pending, inbox, tape);
      && (o.stopped ==> o.pending == [] || (base && o.answer.Some? && o.answer.value.Unknown?))
      && (!o.stopped && o.clauses != [] ==>
            o.answer.Some? && (o.answer.value.Unsat? || (!base && o.answer.value.Unknown?)))
      && (o.answer.Some? && !o.answer.value.Sat? ==> Query(RefineQuery(base, k, o.clauses), o.answer.value) in o.asked)
    decreases |tape|
  {
    var p := RefinePass(base, k, clauses, pending, inbox, tape);
    if p.again {
      RefineLoopEnds(base, k, p.clauses, p.pending, p.inbox, p.tape);
    }
  }

  /** The part of `RefineLoopEnds` about stopping. */
  lemma RefineLoopStopCause(base: bool, k: nat, clauses: seq<Expr>, pending: seq<Id>,
                            inbox: seq<seq<Message>>, tape: seq<SolverResult>)
    ensures var o := RefineLoop(base, k, clauses, pending, inbox, tape);
      o.stopped ==> o.pending == [] || (base && o.answer.Some? && o.answer.value.Unknown?)
  {
    RefineLoopEnds(base, k, clauses, pending, inbox, tape);
  }

  /**
   * In the inductive step an Unknown answer ends refinement like Unsat does: once the next
   * batch of messages leaves something pending, an Unknown answer to the first query keeps
   * the candidate unrefined, and it is then treated as proven. (In the base step the same
   * answer stops the engine.)
   */
  lemma InductiveUnknownKeepsCandidate(k: nat, clauses: seq<Expr>, pending: seq<Id>,
                                       inbox: seq<seq<Message>>, tape: seq<SolverResult>)
    requires NextAnswer(tape).Unknown?
    requires AfterBatch(pending, NextBatch(inbox)) != []
    ensures var o := RefineLoop(false, k, clauses, pending, inbox, tape);
      && !o.stopped && o.clauses == clauses && o.pending == AfterBatch(pending, NextBatch(inbox))
      && o.inbox == LaterBatches(inbox) && o.tape == RestOfTape(tape)
      && o.asked == [Query(InductiveQuery(k, clauses), AsQueryResult(NextAnswer(tape)))]
    ensures RefineLoop(true, k, clauses, pending, inbox, tape).stopped
  {
  }

  /** What `sendValidProperties` leaves pending, and what it promotes to valid, in order. */
  datatype Promotion = Promotion(left: seq<Id>, valid: seq<Id>)

  /** `sendValidProperties`' loop: the new invariants that name a still-pending property are promoted, one occurrence each. */
  function Promote(pending: seq<Id>, newInvariants: seq<Expr>): Promotion
    decreases |newInvariants|
  {
    if newInvariants == [] then Promotion(pending, [])
    else
      var e := newInvariants[0];
      if e.IdExpr? && e.id in pending then
        var r := Promote(RemoveFirst(pending, e.id), newInvariants[1..]);
        Promotion(r.left, [e.id] + r.valid)
      else Promote(pending, newInvariants[1..])
  }

  /** Promotion moves properties from the pending list to the valid list: nothing is lost or duplicated. */
  lemma {:induction false} PromoteCounts(pending: seq<Id>, newInvariants: seq<Expr>)
    ensures var r := Promote(pending, newInvariants);
      multiset(pending) == multiset(r.left) + multiset(r.valid)
    decreases |newInvariants|
  {
    if newInvariants != [] {
      var e := newInvariants[0];
      if e.IdExpr? && e.id in pending {
        var pending' := RemoveFirst(pending, e.id);
        PromoteCounts(pending', newInvariants[1..]);
        var r := Promote(pending', newInvariants[1..]);
        assert multiset(pending) == multiset(pending') + multiset{e.id};
        assert multiset([e.id] + r.valid) == multiset{e.id} + multiset(r.valid);
      } else {
        PromoteCounts(pending, newInvariants[1..]);
      }
    }
  }

  /** Only properties named by an identifier invariant are promoted. */
  lemma {:induction false} PromoteSound(pending: seq<Id>, newInvariants: seq<Expr>)
    ensures forall p :: p in Promote(pending, newInvariants).valid ==> IdExpr(p) in newInvariants
    decreases |newInvariants|
  {
    if newInvariants != [] {
      var e := newInvariants[0];
      assert newInvariants == [e] + newInvariants[1..];
      if e.IdExpr? && e.id in pending {
        PromoteSound(RemoveFirst(pending, e.id), newInvariants[1..]);
        assert e == IdExpr(e.id);
      } else {
        PromoteSound(pending, newInvariants[1..]);
      }
    }
  }

  /** Every identifier invariant that names a pending property promotes it. */
  lemma {:induction false} PromoteComplete(pending: seq<Id>, newInvariants: seq<Expr>)
    ensures forall e :: e in newInvariants && e.IdExpr? && e.id in pending ==> e.id in Promote(pending, newInvariants).valid
    decreases |newInvariants|
  {
    if newInvariants != [] {
      var e := newInvariants[0];
      assert newInvariants == [e] + newInvariants[1..];
      if e.IdExpr? && e.id in pending {
        var pending' := RemoveFirst(pending, e.id);
        PromoteComplete(pending', newInvariants[1..]);
        forall e' | e' in newInvariants && e'.IdExpr? && e'.id in pending
          ensures e'.id in Promote(pending, newInvariants).valid
        {
          if e'.id != e.id {
            assert e' in newInvariants[1..];
            assert multiset(pending')[e'.id] == multiset(pending)[e'.id];
          }
        }
      } else {
        PromoteComplete(pending, newInvariants[1..]);
      }
    }
  }

  /** One iteration of `sendValidProperties`' loop. */
  lemma PromoteStep(pending: seq<Id>, newInvariants: seq<Expr>, i: nat)
    requires i < |newInvariants|
    ensures var e := newInvariants[i];
      Promote(pending, newInvariants[i..])
        == if e.IdExpr? && e.id in pending then
             Promotion(Promote(RemoveFirst(pending, e.id), newInvariants[i + 1..]).left,
                       [e.id] + Promote(RemoveFirst(pending, e.id), newInvariants[i + 1..]).valid)
           else Promote(pending, newInvariants[i + 1..])
  {
    assert newInvariants[i..][1..] == newInvariants[i + 1..];
  }

  /** Every message this engine sends: a Valid message for properties at a depth within the bound, or an Invariant message. */
  predicate InvGenSends(d: Delivery, name: string, n: nat, itinerary: Itinerary) {
    d.ToAll? &&
    if d.msg.ValidMessage? then
      && d.msg.source == name && d.msg.valid != [] && 1 <= d.msg.k <= n && d.msg.ivc == [] && d.msg.itinerary == itinerary
      && (forall p :: p in d.msg.valid ==> IdExpr(p) in d.msg.invariants)
    else
      d.msg.InvariantMessage?
  }

  predicate AllInvGenSends(ds: seq<Delivery>, name: string, n: nat, itinerary: Itinerary) {
    forall i :: 0 <= i < |ds| ==> InvGenSends(ds[i], name, n, itinerary)
  }

  lemma InvGenSendsConcat(a: seq<Delivery>, b: seq<Delivery>, name: string, n: nat, itinerary: Itinerary)
    requires AllInvGenSends(a, name, n, itinerary) && AllInvGenSends(b, name, n, itinerary)
    ensures AllInvGenSends(a + b, name, n, itinerary)
  {
  }

  /** The commands asserting the base transitions into steps 0 .. count-1. */
  function BaseTransitions(relation: string, vars: seq<VarDecl>, count: nat): seq<Command> {
    if count == 0 then [] else BaseTransitions(relation, vars, count - 1) + [Assert(BaseTransition(relation, vars, count - 1))]
  }

  /** The base-step scope asserts the transition into each step 0 .. count-1 once, in order. */
  lemma {:induction false} BaseTransitionsAt(relation: string, vars: seq<VarDecl>, count: nat)
    ensures var r := BaseTransitions(relation, vars, count);
      |r| == count && forall i :: 0 <= i < count ==> r[i] == Assert(BaseTransition(relation, vars, i))
  {
    if count > 0 {
      BaseTransitionsAt(relation, vars, count - 1);
    }
  }

  /** The commands asserting, for steps 0 .. count-1, the proven invariants and the inductive transition. */
  function InductiveAsserts(relation: string, vars: seq<VarDecl>, proven: seq<Expr>, count: nat): seq<Command> {
    if count == 0 then []
    else
      InductiveAsserts(relation, vars, proven, count - 1)
        + [Assert(ConjoinInvariants(proven, count - 1)), Assert(InductiveTransition(relation, vars, count - 1))]
  }

  /** Two commands per step. */
  lemma {:induction false} InductiveAssertsLength(relation: string, vars: seq<VarDecl>, proven: seq<Expr>, count: nat)
    ensures |InductiveAsserts(relation, vars, proven, count)| == 2 * count
  {
    if count > 0 {
      InductiveAssertsLength(relation, vars, proven, count - 1);
    }
  }

  /**
   * The inductive-step scope asserts, for each step i of 0 .. count-1 in order, the proven
   * invariants at step i and then the inductive transition into it.
   */
  lemma {:induction false} InductiveAssertsAt(relation: string, vars: seq<VarDecl>, proven: seq<Expr>, count: nat, i: nat)
    requires i < count
    ensures var r := InductiveAsserts(relation, vars, proven, count);
      && |r| == 2 * count
      && r[2 * i] == Assert(ConjoinInvariants(proven, i))
      && r[2 * i + 1] == Assert(InductiveTransition(relation, vars, i))
  {
    InductiveAssertsLength(relation, vars, proven, count - 1);
    InductiveAssertsLength(relation, vars, proven, count);
    if i < count - 1 {
      InductiveAssertsAt(relation, vars, proven, count - 1, i);
    }
  }

  /** A round appended to the trace of rounds appends its messages to what was sent. */
  lemma TraceStep(trace: seq<seq<Delivery>>, out: seq<Delivery>, step: seq<Delivery>)
    requires out == Flatten(trace)
    ensures out + step == Flatten(trace + [step])
    ensures |trace + [step]| == |trace| + 1 && (trace + [step])[|trace|] == step
  {
    FlattenAppend(trace, step);
  }

  /** What publishing new invariants sends: Valid for the promoted properties, if any, then the invariants. */
  function Announced(name: string, valid: seq<Id>, k: nat, proven: seq<Expr>, itinerary: Itinerary,
                     newInvariants: seq<Expr>): seq<Delivery> {
    (if valid == [] then [] else [ToAll(ValidMessage(name, valid, k, proven, [], itinerary))])
      + [ToAll(InvariantMessage(newInvariants))]
  }

  /**
   * What publishing sends is what the engine may send: a property is only announced valid
   * together with a proven invariant naming it.
   */
  lemma AnnouncedSends(name: string, valid: seq<Id>, k: nat, n: nat, proven: seq<Expr>, itinerary: Itinerary,
                       newInvariants: seq<Expr>)
    requires 1 <= k <= n
    requires forall p :: p in valid ==> IdExpr(p) in proven
    ensures AllInvGenSends(Announced(name, valid, k, proven, itinerary, newInvariants), name, n, itinerary)
  {
  }

  /** The engine's state between two rounds of `main`: the candidate's clauses, the pending properties, the undelivered messages, the solver's remaining answers and the proven invariants. */
  datatype Progress = Progress(clauses: seq<Expr>, pending: seq<Id>, inbox: seq<seq<Message>>,
                               tape: seq<SolverResult>, proven: seq<Expr>)

  /** What one round of `main` leaves: the next state, what it sent, whether it stopped the engine and whether it ends `main`. */
  datatype RoundResult = RoundResult(next: Progress, sent: seq<Delivery>, stopped: bool, done: bool)

  /**
   * Round `d + 1` of `main` (the source's iteration `k == d + 1`): the base step at depth `d`;
   * a stop there, or a trivial candidate, ends `main`. Otherwise the inductive step at `d + 1`
   * on what the base step left: a stop there ends `main` too; else the survivors are proven,
   * promote the properties they name, are announced, and are dropped from the candidate.
   */
  function RoundOf(name: string, itinerary: Itinerary, d: nat, s: Progress): RoundResult
  {
    var ob := RefineLoop(true, d, s.clauses, s.pending, s.inbox, s.tape);
    if ob.stopped || ob.clauses == [] then
      RoundResult(Progress(ob.clauses, ob.pending, ob.inbox, ob.tape, s.proven), [], ob.stopped, true)
    else
      var oi := RefineLoop(false, d + 1, ob.clauses, ob.pending, ob.inbox, ob.tape);
      if oi.stopped then
        RoundResult(Progress(ob.clauses, oi.pending, oi.inbox, oi.tape, s.proven), [], true, true)
      else
        var promoted := Promote(oi.pending, oi.clauses);
        var proven := s.proven + oi.clauses;
        RoundResult(Progress(RemoveAll(ob.clauses, oi.clauses), promoted.left, oi.inbox, oi.tape, proven),
                    Announced(name, promoted.valid, d + 1, proven, itinerary, oi.clauses), false, false)
  }

  /**
   * A round only removes: pending properties and candidate clauses are dropped, never added,
   * and the proven invariants are only extended.
   */
  lemma RoundShrinks(name: string, itinerary: Itinerary, d: nat, s: Progress)
    ensures var r := RoundOf(name, itinerary, d, s);
      && multiset(r.next.pending) <= multiset(s.pending)
      && multiset(r.next.clauses) <= multiset(s.clauses)
      && |s.proven| <= |r.next.proven| && r.next.proven[..|s.proven|] == s.proven
  {
    var ob := RefineLoop(true, d, s.clauses, s.pending, s.inbox, s.tape);
    RefineLoopShrinks(true, d, s.clauses, s.pending, s.inbox, s.tape);
    if !(ob.stopped || ob.clauses == []) {
      var oi := RefineLoop(false, d + 1, ob.clauses, ob.pending, ob.inbox, ob.tape);
      RefineLoopShrinks(false, d + 1, ob.clauses, ob.pending, ob.inbox, ob.tape);
      ShrinkTrans(oi.pending, ob.pending, s.pending);
      if !oi.stopped {
        PromoteCounts(oi.pending, oi.clauses);
        ShrinkTrans(Promote(oi.pending, oi.clauses).left, oi.pending, s.pending);
        ShrinkTrans(RemoveAll(ob.clauses, oi.clauses), ob.clauses, s.clauses);
        assert (s.proven + oi.clauses)[..|s.proven|] == s.proven;
      }
    }
  }

  /**
   * How a round ends `main`. A stop sends nothing, and happens only when no property is
   * pending any more or the solver answered Unknown in the base step. A round that ends
   * `main` without a stop leaves the candidate trivial.
   */
  lemma RoundEnds(name: string, itinerary: Itinerary, d: nat, s: Progress)
    ensures var r := RoundOf(name, itinerary, d, s);
      var ob := RefineLoop(true, d, s.clauses, s.pending, s.inbox, s.tape);
      && (r.stopped ==> r.done && r.sent == [])
      && (r.stopped ==> r.next.pending == [] || (ob.answer.Some? && ob.answer.value.Unknown?))
      && (r.done && !r.stopped ==> r.next.clauses == [])
  {
    var ob := RefineLoop(true, d, s.clauses, s.pending, s.inbox, s.tape);
    RefineLoopStopCause(true, d, s.clauses, s.pending, s.inbox, s.tape);
    if !(ob.stopped || ob.clauses == []) {
      RefineLoopStopCause(false, d + 1, ob.clauses, ob.pending, ob.inbox, ob.tape);
    }
  }

  /** What a round sends is what the engine may send. */
  lemma RoundSends(name: string, itinerary: Itinerary, d: nat, n: nat, s: Progress)
    requires d < n
    ensures AllInvGenSends(RoundOf(name, itinerary, d, s).sent, name, n, itinerary)
  {
    var ob := RefineLoop(true, d, s.clauses, s.pending, s.inbox, s.tape);
    if !(ob.stopped || ob.clauses == []) {
      var oi := RefineLoop(false, d + 1, ob.clauses, ob.pending, ob.inbox, ob.tape);
      if !oi.stopped {
        var valid := Promote(oi.pending, oi.clauses).valid;
        PromoteSound(oi.pending, oi.clauses);
        AnnouncedSends(name, valid, d + 1, n, s.proven + oi.clauses, itinerary, oi.clauses);
      }
    }
  }

  /** What `main` leaves: the final state, what each round sent, in order, and whether the engine was stopped. */
  datatype MainResult = MainResult(last: Progress, trace: seq<seq<Delivery>>, stopped: bool)

  /** Rounds `d + 1` .. `n` of `main`, from state `s`, until one ends it. */
  function Rounds(name: string, itinerary: Itinerary, n: nat, d: nat, s: Progress): MainResult
    decreases n - d, 1
  {
    if d >= n then MainResult(s, [], false) else After(name, itinerary, n, d, RoundOf(name, itinerary, d, s))
  }

  /** The rest of `main` once round `d + 1` has had result `r`: its messages, then the later rounds unless it ended `main`. */
  function After(name: string, itinerary: Itinerary, n: nat, d: nat, r: RoundResult): MainResult
    requires d < n
    decreases n - d, 0
  {
    if r.done then MainResult(r.next, [r.sent], r.stopped)
    else
      var m := Rounds(name, itinerary, n, d + 1, r.next);
      MainResult(m.last, [r.sent] + m.trace, m.stopped)
  }

  /** `main` runs at most one round per step from `d + 1` to `n`. */
  lemma {:induction false} RoundsLength(name: string, itinerary: Itinerary, n: nat, d: nat, s: Progress)
    requires d <= n
    ensures |Rounds(name, itinerary, n, d, s).trace| <= n - d
    decreases n - d
  {
    if d < n {
      var r := RoundOf(name, itinerary, d, s);
      if !r.done {
        RoundsLength(name, itinerary, n, d + 1, r.next);
        var m := Rounds(name, itinerary, n, d + 1, r.next);
        assert Rounds(name, itinerary, n, d, s).trace == [r.sent] + m.trace;
      }
    }
  }

  /** A stop ends `main` in the round that stopped, which is the last one and sent nothing. */
  lemma {:induction false} RoundsStopLast(name: string, itinerary: Itinerary, n: nat, d: nat, s: Progress)
    ensures var m := Rounds(name, itinerary, n, d, s);
      m.stopped ==> m.trace != [] && m.trace[|m.trace| - 1] == []
    decreases n - d
  {
    if d < n {
      var r := RoundOf(name, itinerary, d, s);
      if r.done {
        assert r.stopped ==> r.sent == [];
      } else {
        RoundsStopLast(name, itinerary, n, d + 1, r.next);
        var m := Rounds(name, itinerary, n, d + 1, r.next);
        assert Rounds(name, itinerary, n, d, s).trace == [r.sent] + m.trace;
      }
    }
  }

  /** Over all its rounds `main` only drops pending properties and only extends the proven invariants. */
  lemma {:induction false} RoundsShrink(name: string, itinerary: Itinerary, n: nat, d: nat, s: Progress)
    ensures var m := Rounds(name, itinerary, n, d, s);
      && multiset(m.last.pending) <= multiset(s.pending)
      && |s.proven| <= |m.last.proven| && m.last.proven[..|s.proven|] == s.proven
    decreases n - d
  {
    if d < n {
      var r := RoundOf(name, itinerary, d, s);
      RoundShrinks(name, itinerary, d, s);
      if !r.done {
        RoundsShrink(name, itinerary, n, d + 1, r.next);
        var m := Rounds(name, itinerary, n, d + 1, r.next);
        ShrinkTrans(m.last.pending, r.next.pending, s.pending);
        assert m.last.proven[..|s.proven|] == m.last.proven[..|r.next.proven|][..|s.proven|];
      }
    }
  }

  /** Every message of every round is one the engine may send. */
  lemma {:induction false} RoundsSends(name: string, itinerary: Itinerary, n: nat, d: nat, s: Progress)
    ensures AllInvGenSends(Flatten(Rounds(name, itinerary, n, d, s).trace), name, n, itinerary)
    decreases n - d
  {
    if d < n {
      var r := RoundOf(name, itinerary, d, s);
      RoundSends(name, itinerary, d, n, s);
      if r.done {
        FlattenPrepend(r.sent, []);
      } else {
        RoundsSends(name, itinerary, n, d + 1, r.next);
        var m := Rounds(name, itinerary, n, d + 1, r.next);
        assert Rounds(name, itinerary, n, d, s).trace == [r.sent] + m.trace;
        FlattenPrepend(r.sent, m.trace);
        InvGenSendsConcat(r.sent, Flatten(m.trace), name, n, itinerary);
      }
    }
  }

  /** Running round `d + 1` of `Rounds`: the trace gains that round's messages, and the rest of the run goes on from its state. */
  lemma RoundsAdvance(name: string, itinerary: Itinerary, n: nat, d: nat, s: Progress, r: RoundResult,
                      trace: seq<seq<Delivery>>, whole: MainResult)
    requires d < n && r == RoundOf(name, itinerary, d, s)
    requires var m := Rounds(name, itinerary, n, d, s); whole == MainResult(m.last, trace + m.trace, m.stopped)
    ensures r.done ==> whole == MainResult(r.next, trace + [r.sent], r.stopped)
    ensures !r.done ==> var m := Rounds(name, itinerary, n, d + 1, r.next);
      whole == MainResult(m.last, trace + [r.sent] + m.trace, m.stopped)
  {
    AppendAssoc(trace, [r.sent], Rounds(name, itinerary, n, d + 1, r.next).trace);
  }

  class InvariantGenerationEngine {
    /** The concrete engine's name. */
    const name: string
    const n: nat
    const relation: string
    const vars: seq<VarDecl>
    /** The clauses of `createInitialInvariant()`. */
    const initial: seq<Expr>
    const solver: Solver
    const director: Director
    var properties: seq<Id>
    /** `provenInvariants`, in the order they were proven. */
    var proven: seq<Expr>
    var inbox: seq<seq<Message>>

    constructor (name: string, n: nat, relation: string, vars: seq<VarDecl>, initial: seq<Expr>,
                 properties: seq<Id>, solver: Solver, director: Director, inbox: seq<seq<Message>>)
      ensures this.name == name && this.n == n && this.relation == relation && this.vars == vars
      ensures this.initial == initial && this.properties == properties && proven == []
      ensures this.solver == solver && this.director == director && this.inbox == inbox
    {
      this.name := name;
      this.n := n;
      this.relation := relation;
      this.vars := vars;
      this.initial := initial;
      this.properties := properties;
      this.proven := [];
      this.solver := solver;
      this.director := director;
      this.inbox := inbox;
    }

    /** The handlers: Valid, Invalid and Unknown messages remove their properties; the others do nothing. */
    method HandleMessage(m: Message)
      modifies this
      ensures properties == AfterMessage(old(properties), m)
      ensures proven == old(proven) && inbox == old(inbox)
    {
      match m
      case InvalidMessage(_, invalid, _, _, _) =>
        properties := RemoveAll(properties, invalid);
      case UnknownMessage(_, unknown) =>
        properties := RemoveAll(properties, unknown);
      case ValidMessage(_, valid, _, _, _, _) =>
        properties := RemoveAll(properties, valid);
      case _ =>
        RemoveNothing(properties);
    }

    /** `processMessages`: handles, in order, the next batch of incoming messages. */
    method ProcessMessages()
      modifies this
      ensures properties == AfterBatch(old(properties), NextBatch(old(inbox)))
      ensures inbox == LaterBatches(old(inbox))
      ensures proven == old(proven)
    {
      if inbox == [] {
        return;
      }
      var batch := inbox[0];
      inbox := inbox[1..];
      var i := 0;
      while i < |batch|
        invariant 0 <= i <= |batch|
        invariant properties == AfterBatch(old(properties), batch[..i])
        invariant inbox == old(inbox)[1..] && proven == old(proven)
      {
        BatchStep(old(properties), batch, i);
        HandleMessage(batch[i]);
        i := i + 1;
      }
      assert batch[..i] == batch;
    }

    /** `checkForStop()`: drain the messages; the engine must stop exactly when nothing is pending. */
    method CheckForStop() returns (stop: bool)
      modifies this
      ensures properties == AfterBatch(old(properties), NextBatch(old(inbox)))
      ensures inbox == LaterBatches(old(inbox))
      ensures stop <==> properties == []
      ensures proven == old(proven)
    {
      ProcessMessages();
      stop := properties == [];
    }

    /** One pass of a refinement loop on `inv`, as `RefinePass` describes it. */
    method RefineOnce(base: bool, k: nat, inv: StructuredInvariant) returns (stopped: bool, again: bool)
      modifies this, solver, inv
      ensures var p := RefinePass(base, k, old(inv.clauses), old(properties), old(inbox), old(solver.tape));
        && inv.clauses == p.clauses && properties == p.pending && inbox == p.inbox && solver.tape == p.tape
        && solver.log == old(solver.log) + p.asked && stopped == p.stopped && again == p.again
      ensures solver.depth == old(solver.depth) && proven == old(proven)
    {
      stopped := CheckForStop();
      if stopped {
        return true, false;
      }
      var result := solver.CheckQuery(RefineQuery(base, k, inv.clauses));
      if result.Sat? {
        inv.Refine(result.model.value, k);
      } else if base && result.Unknown? {
        return true, false;
      }
      again := !inv.IsTrivial() && result.Sat?;
    }

    /** The `do ... while` of a refinement, as `RefineLoop` describes it. */
    method RefineUntilDone(base: bool, k: nat, inv: StructuredInvariant) returns (stopped: bool)
      modifies this, solver, inv
      ensures var o := RefineLoop(base, k, old(inv.clauses), old(properties), old(inbox), old(solver.tape));
        && inv.clauses == o.clauses && properties == o.pending && inbox == o.inbox && solver.tape == o.tape
        && solver.log == old(solver.log) + o.asked && stopped == o.stopped
      ensures solver.depth == old(solver.depth) && proven == old(proven)
    {
      ghost var o0 := RefineLoop(base, k, inv.clauses, properties, inbox, solver.tape);
      ghost var asked: seq<Command> := [];
      ghost var answer: Option<SolverResult> := None;
      var again := true;
      stopped := false;
      while again
        invariant solver.depth == old(solver.depth) && proven == old(proven)
        invariant solver.log == old(solver.log) + asked
        invariant again ==> !stopped && o0 == RefineLoop(base, k, inv.clauses, properties, inbox, solver.tape).(asked := asked + RefineLoop(base, k, inv.clauses, properties, inbox, solver.tape).asked)
        invariant !again ==> o0 == Refinement(inv.clauses, properties, inbox, solver.tape, asked, answer, stopped)
        decreases if again then |solver.tape| + 1 else 0
      {
        ghost var p := RefinePass(base, k, inv.clauses, properties, inbox, solver.tape);
        RefineLoopUnfold(base, k, inv.clauses, properties, inbox, solver.tape);
        stopped, again := RefineOnce(base, k, inv);
        AppendAssoc(old(solver.log), asked, p.asked);
        if again {
          AppendAssoc(asked, p.asked, RefineLoop(base, k, inv.clauses, properties, inbox, solver.tape).asked);
        }
        asked := asked + p.asked;
        answer := p.answer;
      }
    }

    /** The loop of `refineBaseStep` asserting the base transitions into steps 0 .. k. */
    method AssertBaseTransitions(k: nat)
      modifies solver
      ensures solver.log == old(solver.log) + BaseTransitions(relation, vars, k + 1)
      ensures solver.tape == old(solver.tape) && solver.depth == old(solver.depth)
    {
      var i := 0;
      while i <= k
        invariant 0 <= i <= k + 1
        invariant solver.log == old(solver.log) + BaseTransitions(relation, vars, i)
        invariant solver.tape == old(solver.tape) && solver.depth == old(solver.depth)
      {
        AppendAssoc(old(solver.log), BaseTransitions(relation, vars, i), [Assert(BaseTransition(relation, vars, i))]);
        solver.AssertTerm(BaseTransition(relation, vars, i));
        i := i + 1;
      }
    }

    /**
     * `refineBaseStep(k, inv)`: in a new scope, assert the base transitions into steps 0 .. k and
     * refine `inv` until the candidate holds at step `k` on every such path (or is trivial).
     * When the engine stops the scope is left open, as the exception skips the `pop`.
     */
    method RefineBaseStep(k: nat, inv: StructuredInvariant) returns (stopped: bool)
      modifies this, solver, inv
      ensures var o := RefineLoop(true, k, old(inv.clauses), old(properties), old(inbox), old(solver.tape));
        && inv.clauses == o.clauses && properties == o.pending && inbox == o.inbox && solver.tape == o.tape
        && stopped == o.stopped
        && solver.log == old(solver.log) + [Push] + BaseTransitions(relation, vars, k + 1) + o.asked + (if stopped then [] else [Pop])
      ensures solver.depth == old(solver.depth) + (if stopped then 1 else 0)
      ensures proven == old(proven)
    {
      solver.PushScope();
      AssertBaseTransitions(k);
      ghost var before := solver.log;
      stopped := RefineUntilDone(true, k, inv);
      if stopped {
        return;
      }
      solver.PopScope();
      AppendAssoc(before, RefineLoop(true, k, old(inv.clauses), old(properties), old(inbox), old(solver.tape)).asked, [Pop]);
    }

    /** The loop of `refineInductiveStep` asserting, for steps 0 .. k, the proven invariants and the inductive transition. */
    method AssertInductiveSteps(k: nat)
      modifies solver
      ensures solver.log == old(solver.log) + InductiveAsserts(relation, vars, proven, k + 1)
      ensures solver.tape == old(solver.tape) && solver.depth == old(solver.depth)
    {
      var i := 0;
      while i <= k
        invariant 0 <= i <= k + 1
        invariant solver.log == old(solver.log) + InductiveAsserts(relation, vars, proven, i)
        invariant solver.tape == old(solver.tape) && solver.depth == old(solver.depth)
      {
        var step := [Assert(ConjoinInvariants(proven, i)), Assert(InductiveTransition(relation, vars, i))];
        AppendAssoc(old(solver.log), InductiveAsserts(relation, vars, proven, i), step);
        solver.AssertTerm(ConjoinInvariants(proven, i));
        solver.AssertTerm(InductiveTransition(relation, vars, i));
        i := i + 1;
      }
    }

    /**
     * `sendValidProperties(newInvariants, k)`: promote the identifier invariants naming pending
     * properties; announce them Valid at depth `k`, with all proven invariants, if there are any.
     */
    method SendValidProperties(newInvariants: seq<Expr>, k: nat)
      modifies this, director
      ensures properties == Promote(old(properties), newInvariants).left
      ensures var valid := Promote(old(properties), newInvariants).valid;
        director.sent == old(director.sent)
          + (if valid == [] then [] else [ToAll(ValidMessage(name, valid, k, proven, [], director.validItinerary))])
      ensures proven == old(proven) && inbox == old(inbox)
    {
      ghost var goal := Promote(properties, newInvariants);
      var valid: seq<Id> := [];
      var i := 0;
      assert newInvariants[i..] == newInvariants;
      while i < |newInvariants|
        invariant 0 <= i <= |newInvariants|
        invariant goal.left == Promote(properties, newInvariants[i..]).left
        invariant goal.valid == valid + Promote(properties, newInvariants[i..]).valid
        invariant proven == old(proven) && inbox == old(inbox) && director.sent == old(director.sent)
      {
        var inv := newInvariants[i];
        PromoteStep(properties, newInvariants, i);
        if inv.IdExpr? && inv.id in properties {
          AppendAssoc(valid, [inv.id], Promote(RemoveFirst(properties, inv.id), newInvariants[i + 1..]).valid);
          properties := RemoveFirst(properties, inv.id);
          valid := valid + [inv.id];
        }
        i := i + 1;
      }
      assert newInvariants[i..] == [];
      assert valid == goal.valid;
      if valid != [] {
        director.Broadcast(ValidMessage(name, valid, k, proven, [], director.validItinerary));
      }
    }

    /** `sendInvariants(newInvariants)`: always announces the new invariants. */
    method SendInvariants(newInvariants: seq<Expr>)
      modifies director
      ensures director.sent == old(director.sent) + [ToAll(InvariantMessage(newInvariants))]
    {
      director.Broadcast(InvariantMessage(newInvariants));
    }

    /**
     * The refinement part of `refineInductiveStep(k, original)`: in a new scope, assume the proven
     * invariants and the inductive transition at steps 0 .. k, and refine a copy of the candidate
     * until it is k-inductive (or trivial). The original is left alone.
     */
    method RefineCopy(k: nat, original: StructuredInvariant) returns (stopped: bool, inv: StructuredInvariant, ghost o: Refinement)
      modifies this, solver
      ensures o == RefineLoop(false, k, old(original.clauses), old(properties), old(inbox), old(solver.tape))
      ensures fresh(inv) && inv.clauses == o.clauses && properties == o.pending && inbox == o.inbox
      ensures solver.tape == o.tape && stopped == o.stopped && proven == old(proven)
      ensures solver.log == old(solver.log) + [Push] + InductiveAsserts(relation, vars, proven, k + 1) + o.asked
                + (if stopped then [] else [Pop])
      ensures solver.depth == old(solver.depth) + (if stopped then 1 else 0)
    {
      o := RefineLoop(false, k, original.clauses, properties, inbox, solver.tape);
      solver.PushScope();
      inv := original.Copy();
      AssertInductiveSteps(k);
      ghost var before := solver.log;
      stopped := RefineUntilDone(false, k, inv);
      if stopped {
        return;
      }
      solver.PopScope();
      AppendAssoc(before, o.asked, [Pop]);
    }

    /**
     * The end of `refineInductiveStep`: the survivors become proven invariants, promote the
     * pending properties they name (announced Valid with every proven invariant), and are
     * announced as invariants.
     */
    method Publish(newInvariants: seq<Expr>, k: nat)
      modifies this, director
      ensures proven == old(proven) + newInvariants
      ensures properties == Promote(old(properties), newInvariants).left
      ensures director.sent == old(director.sent)
        + Announced(name, Promote(old(properties), newInvariants).valid, k, proven, director.validItinerary, newInvariants)
      ensures inbox == old(inbox)
    {
      proven := proven + newInvariants;
      SendValidProperties(newInvariants, k);
      SendInvariants(newInvariants);
    }

    /**
     * `refineInductiveStep(k, original)`: refine a copy until it is k-inductive, publish what
     * survives, and drop it from the original, which nothing else changes. A stop leaves the
     * scope open and nothing published.
     */
    method RefineInductiveStep(k: nat, original: StructuredInvariant) returns (stopped: bool, ghost o: Refinement)
      modifies this, solver, director, original
      ensures o == RefineLoop(false, k, old(original.clauses), old(properties), old(inbox), old(solver.tape))
      ensures inbox == o.inbox && solver.tape == o.tape && stopped == o.stopped
      ensures solver.log == old(solver.log) + [Push] + InductiveAsserts(relation, vars, old(proven), k + 1) + o.asked
                + (if stopped then [] else [Pop])
      ensures solver.depth == old(solver.depth) + (if stopped then 1 else 0)
      ensures stopped ==> && properties == o.pending && proven == old(proven)
                          && original.clauses == old(original.clauses) && director.sent == old(director.sent)
      ensures !stopped ==> && proven == old(proven) + o.clauses
                           && properties == Promote(o.pending, o.clauses).left
                           && original.clauses == RemoveAll(old(original.clauses), o.clauses)
                           && director.sent == old(director.sent)
                                + Announced(name, Promote(o.pending, o.clauses).valid, k, proven, director.validItinerary, o.clauses)
    {
      var inv;
      stopped, inv, o := RefineCopy(k, original);
      if stopped {
        return;
      }
      Publish(inv.clauses, k);
      original.ReduceProven(inv);
    }

    /**
     * The base step of one iteration of `main`'s loop: `refineBaseStep(k, candidate)`, which
     * sends nothing; a stop here is the `StopException` that ends `main`.
     */
    method BaseHalf(k: nat, candidate: StructuredInvariant) returns (stopped: bool, ghost o: Refinement)
      modifies this, solver, candidate
      ensures o == RefineLoop(true, k, old(candidate.clauses), old(properties), old(inbox), old(solver.tape))
      ensures && candidate.clauses == o.clauses && properties == o.pending && inbox == o.inbox && solver.tape == o.tape
        && stopped == o.stopped
        && solver.log == old(solver.log) + [Push] + BaseTransitions(relation, vars, k + 1) + o.asked + (if stopped then [] else [Pop])
      ensures director.sent == old(director.sent)
      ensures solver.depth == old(solver.depth) + (if stopped then 1 else 0)
      ensures multiset(properties) <= multiset(old(properties)) && proven == old(proven)
    {
      ghost var c0, p0, i0, t0 := candidate.clauses, properties, inbox, solver.tape;
      o := RefineLoop(true, k, c0, p0, i0, t0);
      stopped := RefineBaseStep(k, candidate);
      RefineLoopShrinks(true, k, c0, p0, i0, t0);
    }

    /**
     * The inductive step of one iteration of `main`'s loop: the step-`k` variables, then
     * `refineInductiveStep(k, candidate)`.
     * What it learns is what survives refinement of the copy; a stop learns and sends nothing.
     */
    method InductiveHalf(k: nat, candidate: StructuredInvariant)
        returns (stopped: bool, ghost learned: seq<Expr>, ghost out: seq<Delivery>, ghost o: Refinement)
      requires 1 <= k <= n
      modifies this, solver, director, candidate
      ensures o == RefineLoop(false, k, old(candidate.clauses), old(properties), old(inbox), old(solver.tape))
      ensures stopped == o.stopped && inbox == o.inbox && solver.tape == o.tape
      ensures solver.log == old(solver.log) + CreateVariablesCommands(vars, k) + [Push]
                + InductiveAsserts(relation, vars, old(proven), k + 1) + o.asked + (if stopped then [] else [Pop])
      ensures stopped ==> && learned == [] && out == [] && properties == o.pending
                          && candidate.clauses == old(candidate.clauses)
      ensures !stopped ==> && learned == o.clauses && properties == Promote(o.pending, o.clauses).left
                           && candidate.clauses == RemoveAll(old(candidate.clauses), o.clauses)
                           && out == Announced(name, Promote(o.pending, o.clauses).valid, k, proven,
                                               director.validItinerary, o.clauses)
      ensures solver.depth == old(solver.depth) + (if stopped then 1 else 0)
      ensures multiset(properties) <= multiset(old(properties))
      ensures proven == old(proven) + learned
      ensures director.sent == old(director.sent) + out && AllInvGenSends(out, name, n, director.validItinerary)
    {
      ghost var c0, p0, i0, t0 := candidate.clauses, properties, inbox, solver.tape;
      CreateVariables(solver, vars, k);
      stopped, o := RefineInductiveStep(k, candidate);
      RefineLoopShrinks(false, k, c0, p0, i0, t0);
      learned, out := [], [];
      if stopped {
        return;
      }
      PromoteCounts(o.pending, o.clauses);
      PromoteSound(o.pending, o.clauses);
      ShrinkTrans(properties, o.pending, p0);
      learned := o.clauses;
      out := Announced(name, Promote(o.pending, o.clauses).valid, k, proven, director.validItinerary, o.clauses);
      AnnouncedSends(name, Promote(o.pending, o.clauses).valid, k, n, proven, director.validItinerary, o.clauses);
    }

    /**
     * One iteration of `main`'s loop: the base step at depth `k-1`; unless that stopped the
     * engine or left the candidate trivial (either ends `main`), the step-`k` variables and the
     * inductive step at `k`, refining what the base step left. A stop learns and sends nothing
     * and ends `main`.
     */
    method Step(k: nat, candidate: StructuredInvariant)
        returns (done: bool, stopped: bool, ghost learned: seq<Expr>, ghost out: seq<Delivery>,
                 ghost ob: Refinement, ghost oi: Refinement)
      requires 1 <= k <= n
      modifies this, solver, director, candidate
      ensures ob == RefineLoop(true, k - 1, old(candidate.clauses), old(properties), old(inbox), old(solver.tape))
      ensures oi == RefineLoop(false, k, ob.clauses, ob.pending, ob.inbox, ob.tape)
      ensures done <==> ob.stopped || ob.clauses == [] || oi.stopped
      ensures stopped <==> ob.stopped || (ob.clauses != [] && oi.stopped)
      ensures learned == (if done then [] else oi.clauses)
      ensures candidate.clauses == (if done then ob.clauses else RemoveAll(ob.clauses, oi.clauses))
      ensures ob.stopped || ob.clauses == [] ==>
        && properties == ob.pending && inbox == ob.inbox && solver.tape == ob.tape && out == []
        && solver.log == old(solver.log) + [Push] + BaseTransitions(relation, vars, k) + ob.asked
                           + (if ob.stopped then [] else [Pop])
      ensures !(ob.stopped || ob.clauses == []) ==>
        && inbox == oi.inbox && solver.tape == oi.tape
        && (oi.stopped ==> properties == oi.pending && out == [])
        && (!oi.stopped ==> properties == Promote(oi.pending, oi.clauses).left
                            && out == Announced(name, Promote(oi.pending, oi.clauses).valid, k, proven,
                                                director.validItinerary, oi.clauses))
        && solver.log == old(solver.log) + [Push] + BaseTransitions(relation, vars, k) + ob.asked + [Pop]
                           + CreateVariablesCommands(vars, k) + [Push]
                           + InductiveAsserts(relation, vars, old(proven), k + 1) + oi.asked
                           + (if oi.stopped then [] else [Pop])
      ensures solver.depth == old(solver.depth) + (if stopped then 1 else 0)
      ensures multiset(properties) <= multiset(old(properties))
      ensures proven == old(proven) + learned
      ensures director.sent == old(director.sent) + out && AllInvGenSends(out, name, n, director.validItinerary)
    {
      learned, out := [], [];
      ghost var c0, p0, i0, t0 := candidate.clauses, properties, inbox, solver.tape;
      stopped, ob := BaseHalf(k - 1, candidate);
      assert ob == RefineLoop(true, k - 1, c0, p0, i0, t0);
      oi := RefineLoop(false, k, ob.clauses, ob.pending, ob.inbox, ob.tape);
      if stopped || candidate.IsTrivial() {
        return true, stopped, learned, out, ob, oi;
      }
      ghost var p1 := properties;
      assert candidate.clauses == ob.clauses && p1 == ob.pending && inbox == ob.inbox && solver.tape == ob.tape;
      stopped, learned, out, oi := InductiveHalf(k, candidate);
      assert oi == RefineLoop(false, k, ob.clauses, ob.pending, ob.inbox, ob.tape);
      ShrinkTrans(properties, p1, old(properties));
      done := stopped;
    }

    /**
     * `Step` for iteration `k == d + 1`, stated as the round it performs: the state it leaves
     * and what it sends are exactly `RoundOf`'s for the state it starts from.
     */
    method Round(d: nat, candidate: StructuredInvariant)
        returns (done: bool, stopped: bool, ghost learned: seq<Expr>, ghost out: seq<Delivery>)
      requires d < n
      modifies this, solver, director, candidate
      ensures var s := Progress(old(candidate.clauses), old(properties), old(inbox), old(solver.tape), old(proven));
        var r := RoundOf(name, director.validItinerary, d, s);
        && candidate.clauses == r.next.clauses && properties == r.next.pending && inbox == r.next.inbox
        && solver.tape == r.next.tape && proven == r.next.proven
        && out == r.sent && stopped == r.stopped && done == r.done
      ensures solver.depth == old(solver.depth) + (if stopped then 1 else 0)
      ensures multiset(properties) <= multiset(old(properties))
      ensures proven == old(proven) + learned
      ensures director.sent == old(director.sent) + out && AllInvGenSends(out, name, n, director.validItinerary)
    {
      ghost var ob, oi;
      done, stopped, learned, out, ob, oi := Step(d + 1, candidate);
    }

    /**
     * `main`: nothing happens when the initial candidate is trivial; otherwise the variables of
     * steps -1 and 0 are declared and the rounds of `Rounds`, for steps 1 .. n, run until one
     * ends the engine: the final pending list, proven invariants, inbox and solver answers are
     * that run's, and what was sent is its rounds' messages in order, at most one round per
     * step; a stop ends the run in a round that sent nothing. The solver scopes balance unless
     * the engine was stopped inside a refinement.
     */
    method Run() returns (ghost stopped: bool, ghost learned: seq<Expr>, ghost out: seq<Delivery>,
                          ghost trace: seq<seq<Delivery>>)
      modifies this, solver, director
      ensures initial == [] ==> && solver.log == old(solver.log) && trace == [] && !stopped
                                && properties == old(properties) && proven == old(proven)
                                && inbox == old(inbox) && solver.tape == old(solver.tape)
      ensures initial != [] ==>
        var m := Rounds(name, director.validItinerary, n, 0,
                        Progress(initial, old(properties), old(inbox), old(solver.tape), old(proven)));
        && trace == m.trace && stopped == m.stopped
        && properties == m.last.pending && proven == m.last.proven && inbox == m.last.inbox
        && solver.tape == m.last.tape
      ensures out == Flatten(trace) && |trace| <= n
      ensures stopped ==> trace != [] && trace[|trace| - 1] == []
      ensures solver.depth == old(solver.depth) + (if stopped then 1 else 0)
      ensures multiset(properties) <= multiset(old(properties))
      ensures proven == old(proven) + learned
      ensures director.sent == old(director.sent) + out && AllInvGenSends(out, name, n, director.validItinerary)
    {
      stopped, learned, out, trace := false, [], [], [];
      var candidate := new StructuredInvariant(initial);
      if candidate.IsTrivial() {
        return;
      }
      CreateVariables(solver, vars, -1);
      CreateVariables(solver, vars, 0);
      stopped, learned, out, trace := RunSteps(candidate);
    }

    /**
     * `main` after the variables of steps -1 and 0 are declared: the rounds of `Rounds` from
     * the state it starts in, with what they promise about the run as a whole.
     */
    method RunSteps(candidate: StructuredInvariant)
        returns (ghost stopped: bool, ghost learned: seq<Expr>, ghost out: seq<Delivery>,
                 ghost trace: seq<seq<Delivery>>)
      modifies this, solver, director, candidate
      ensures var m := Rounds(name, director.validItinerary, n, 0,
                              Progress(old(candidate.clauses), old(properties), old(inbox), old(solver.tape), old(proven)));
        && trace == m.trace && stopped == m.stopped
        && properties == m.last.pending && proven == m.last.proven && inbox == m.last.inbox
        && solver.tape == m.last.tape
      ensures out == Flatten(trace) && |trace| <= n
      ensures stopped ==> trace != [] && trace[|trace| - 1] == []
      ensures solver.depth == old(solver.depth) + (if stopped then 1 else 0)
      ensures multiset(properties) <= multiset(old(properties))
      ensures proven == old(proven) + learned
      ensures director.sent == old(director.sent) + out && AllInvGenSends(out, name, n, director.validItinerary)
    {
      ghost var s := Progress(candidate.clauses, properties, inbox, solver.tape, proven);
      stopped, trace := RunRounds(candidate);
      ghost var m := Rounds(name, director.validItinerary, n, 0, s);
      assert && |m.trace| <= n && (m.stopped ==> m.trace != [] && m.trace[|m.trace| - 1] == [])
             && multiset(m.last.pending) <= multiset(s.pending)
             && |s.proven| <= |m.last.proven| && m.last.proven[..|s.proven|] == s.proven
             && AllInvGenSends(Flatten(m.trace), name, n, director.validItinerary) by {
        RoundsLength(name, director.validItinerary, n, 0, s);
        RoundsStopLast(name, director.validItinerary, n, 0, s);
        RoundsShrink(name, director.validItinerary, n, 0, s);
        RoundsSends(name, director.validItinerary, n, 0, s);
      }
      out := Flatten(trace);
      learned := proven[|s.proven|..];
      PrefixRest(proven, s.proven);
    }

    /**
     * `Round` inside a run of `Rounds`: if the run `whole` is the rounds already sent in `trace`
     * followed by those of `Rounds` from round `d + 1`, then after this round it is the trace with
     * this round's messages, followed by the rest of the run (nothing, when the round ends it).
     */
    method RoundOfRun(d: nat, candidate: StructuredInvariant, ghost trace: seq<seq<Delivery>>, ghost whole: MainResult)
        returns (done: bool, stopped: bool, ghost sent: seq<Delivery>)
      requires d < n
      requires var m := Rounds(name, director.validItinerary, n, d,
                               Progress(candidate.clauses, properties, inbox, solver.tape, proven));
        whole == MainResult(m.last, trace + m.trace, m.stopped)
      modifies this, solver, director, candidate
      ensures var s' := Progress(candidate.clauses, properties, inbox, solver.tape, proven);
        && (done ==> whole == MainResult(s', trace + [sent], stopped))
        && (!done ==> !stopped && var m := Rounds(name, director.validItinerary, n, d + 1, s');
                      whole == MainResult(m.last, trace + [sent] + m.trace, m.stopped))
      ensures solver.depth == old(solver.depth) + (if stopped then 1 else 0)
      ensures director.sent == old(director.sent) + sent
    {
      ghost var s := Progress(candidate.clauses, properties, inbox, solver.tape, proven);
      ghost var learned;
      done, stopped, learned, sent := Round(d, candidate);
      ghost var r := RoundResult(Progress(candidate.clauses, properties, inbox, solver.tape, proven), sent, stopped, done);
      assert r == RoundOf(name, director.validItinerary, d, s);
      RoundEnds(name, director.validItinerary, d, s);
      RoundsAdvance(name, director.validItinerary, n, d, s, r, trace, whole);
    }

    /** `main`'s loop, for steps 1 .. n: the rounds of `Rounds` from the state it starts in. */
    method RunRounds(candidate: StructuredInvariant) returns (ghost stopped: bool, ghost trace: seq<seq<Delivery>>)
      modifies this, solver, director, candidate
      ensures var m := Rounds(name, director.validItinerary, n, 0,
                              Progress(old(candidate.clauses), old(properties), old(inbox), old(solver.tape), old(proven)));
        && trace == m.trace && stopped == m.stopped
        && properties == m.last.pending && proven == m.last.proven && inbox == m.last.inbox
        && solver.tape == m.last.tape
      ensures director.sent == old(director.sent) + Flatten(trace)
      ensures solver.depth == old(solver.depth) + (if stopped then 1 else 0)
    {
      stopped, trace := false, [];
      ghost var whole := Rounds(name, director.validItinerary, n, 0,
                                Progress(candidate.clauses, properties, inbox, solver.tape, proven));
      var d, done := 0, false;
      while d < n && !done
        invariant solver.depth == old(solver.depth) + (if stopped then 1 else 0)
        invariant director.sent == old(director.sent) + Flatten(trace)
        invariant done ==> whole == MainResult(Progress(candidate.clauses, properties, inbox, solver.tape, proven), trace, stopped)
        invariant !done ==> (!stopped &&
          var m := Rounds(name, director.validItinerary, n, d, Progress(candidate.clauses, properties, inbox, solver.tape, proven));
          whole == MainResult(m.last, trace + m.trace, m.stopped))
      {
        ghost var sent;
        done, stopped, sent := RoundOfRun(d, candidate, trace, whole);
        FlattenAppend(trace, sent);
        AppendAssoc(old(director.sent), Flatten(trace), sent);
        trace := trace + [sent];
        d := d + 1;
      }
      assert !done ==> trace + [] == trace;
    }
  }
}
