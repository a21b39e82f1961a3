/**
 * The bounded model checking engine. At each step k it asks the solver whether some
 * pending property can be false at step k; falsified properties are reported Invalid
 * with counterexample length k+1 and leave the pending list, an unsat core is written
 * to the intermediate-support file, and a BaseStep message announces progress.
 */
module Bmc {
  import opened Collections
  import opened Lustre
  import opened Solvers
  import opened Messages
  import opened EngineBase
  import opened Text

  const Name: string := "bmc"

  /** The model makes property `p` false at step `k`. */
  predicate FalseAt(m: Model, p: Id, k: int) {
    Stream(p, k) in m && m[Stream(p, k)] == BooleanValue(false)
  }

  /** `getFalseProperties(props, k, model)`: the properties the model falsifies at step `k`, in order. */
  function FalseProperties(props: seq<Id>, k: int, m: Model): (r: seq<Id>)
    ensures forall p :: p in r <==> p in props && FalseAt(m, p, k)
    ensures multiset(r) <= multiset(props)
  {
    if props == [] then []
    else
      assert props == [props[0]] + props[1..];
      var tail := FalseProperties(props[1..], k, m);
      if FalseAt(m, props[0], k) then [props[0]] + tail else tail
  }

  /** Falsified and surviving properties split the pending list: none is lost, none is duplicated. */
  lemma {:induction false} FalsePropertiesPartition(props: seq<Id>, bad: seq<Id>, k: int, m: Model)
    requires forall p :: p in props ==> (p in bad <==> FalseAt(m, p, k))
    ensures multiset(props) == multiset(FalseProperties(props, k, m)) + multiset(RemoveAll(props, bad))
  {
    if props != [] {
      assert props == [props[0]] + props[1..];
      FalsePropertiesPartition(props[1..], bad, k, m);
    }
  }

  /** `string2Expr`: each property name as an identifier expression. */
  function String2Expr(ps: seq<Id>): (r: seq<Expr>)
    ensures |r| == |ps|
    ensures forall i :: 0 <= i < |ps| ==> r[i].IdExpr? && r[i].id == ps[i]
  {
    if ps == [] then [] else [IdExpr(ps[0])] + String2Expr(ps[1..])
  }

  /** The identifiers among `es`, in order: the names of those expressions that are bare identifiers. */
  function IdExprIds(es: seq<Expr>): (r: seq<Id>)
    ensures |r| <= |es|
  {
    if es == [] then [] else (if es[0].IdExpr? then [es[0].id] else []) + IdExprIds(es[1..])
  }

  /** `string2Expr` loses nothing: the identifiers can be read back. */
  lemma {:induction false} String2ExprRoundTrip(ps: seq<Id>)
    ensures IdExprIds(String2Expr(ps)) == ps
  {
    if ps != [] {
      assert String2Expr(ps)[1..] == String2Expr(ps[1..]);
      String2ExprRoundTrip(ps[1..]);
    }
  }

  /** `ivcMap.valueList()`: the activation literal of every support unit, in order. */
  function ActivationLiterals(ivc: seq<Id>): (r: seq<Symbol>)
    ensures |r| == |ivc|
    ensures forall i :: 0 <= i < |ivc| ==> r[i] == ActLit(ivc[i])
  {
    if ivc == [] then [] else [ActLit(ivc[0])] + ActivationLiterals(ivc[1..])
  }

  /** `IvcUtil.getIvcNames(ivcMap, core)`: the support units whose literals are in the core. */
  function CoreNames(core: seq<Symbol>): (r: seq<Id>)
    ensures forall x :: x in r <==> ActLit(x) in core
  {
    if core == [] then []
    else (if core[0].ActLit? then [core[0].name] else []) + CoreNames(core[1..])
  }

  function BvcLines(cores: seq<Id>): (r: seq<string>)
    ensures |r| == |cores|
    ensures forall i :: 0 <= i < |cores| ==> r[i] == "   <BVC>" + cores[i] + "</BVC>"
  {
    if cores == [] then [] else ["   <BVC>" + cores[0] + "</BVC>"] + BvcLines(cores[1..])
  }

  /** The block `writeToXmlAllIvcs(cores, k)` appends to the `_bvc.xml` file. */
  function BvcBlock(k: int, cores: seq<Id>): (r: seq<string>)
    ensures |r| == |cores| + 3
    ensures r[0] == "<Results>" && r[1] == "   <Depth>" + IntToString(k) + "</Depth>" && r[|r| - 1] == "</Results>"
    ensures forall i :: 0 <= i < |cores| ==> r[2 + i] == "   <BVC>" + cores[i] + "</BVC>"
  {
    ["<Results>", "   <Depth>" + IntToString(k) + "</Depth>"] + BvcLines(cores) + ["</Results>"]
  }

  /** What one pass of the loop body of `checkProperties(k)` does with the answer `r`. */
  datatype Round = Round(left: seq<Id>, sent: seq<Delivery>, bvc: seq<string>, again: bool)

  /**
   * One pass of the `do ... while` of `checkProperties(k)` on answer `r`:
   * - without a model: every pending property is Unknown and the list is cleared;
   * - with a model: the falsified properties leave the list and are Invalid (Sat) or Unknown (Unknown);
   * - Unsat: the core is written as a block for depth `k`;
   * and the loop goes round again only on Sat with properties still pending.
   */
  function CheckRound(pending: seq<Id>, k: nat, r: SolverResult, itinerary: Itinerary): (rd: Round)
    ensures rd.again ==> r.Sat? && rd.left != []
  {
    if r.Unsat? then Round(pending, [], BvcBlock(k, CoreNames(r.core)), false)
    else if r.model.None? then Round([], [ToDirector(UnknownMessage(Name, pending))], [], false)
    else
      var m := r.model.value;
      var bad := FalseProperties(pending, k, m);
      var left := RemoveAll(pending, bad);
      if r.Unknown? then Round(left, [ToDirector(UnknownMessage(Name, bad))], [], false)
      else Round(left, [ToAll(InvalidMessage(Name, bad, k + 1, m, itinerary))], [], left != [])
  }

  /** What one call of `checkProperties(k)` leaves behind, before its BaseStep message. */
  datatype CheckOutcome = CheckOutcome(
    pending: seq<Id>,
    sent: seq<Delivery>,
    bvc: seq<string>,
    commands: seq<Command>,
    tape: seq<SolverResult>)

  /** An outcome preceded by what earlier passes sent, wrote and asked. */
  function Prefixed(sent: seq<Delivery>, bvc: seq<string>, commands: seq<Command>, o: CheckOutcome): CheckOutcome {
    o.(sent := sent + o.sent, bvc := bvc + o.bvc, commands := commands + o.commands)
  }

  lemma PrefixedNothing(o: CheckOutcome)
    ensures Prefixed([], [], [], o) == o
  {
    assert [] + o.sent == o.sent && [] + o.bvc == o.bvc && [] + o.commands == o.commands;
  }

  lemma PrefixedTwice(sent: seq<Delivery>, bvc: seq<string>, commands: seq<Command>,
                      sent': seq<Delivery>, bvc': seq<string>, commands': seq<Command>, o: CheckOutcome)
    ensures Prefixed(sent, bvc, commands, Prefixed(sent', bvc', commands', o))
         == Prefixed(sent + sent', bvc + bvc', commands + commands', o)
  {
    AppendAssoc(sent, sent', o.sent);
    AppendAssoc(bvc, bvc', o.bvc);
    AppendAssoc(commands, commands', o.commands);
  }

  /**
   * The whole `do ... while` of `checkProperties(k)`: one query per pass on the properties
   * still pending, each pass as `CheckRound` describes, until a pass does not go round again.
   */
  function CheckLoop(pending: seq<Id>, k: nat, lits: seq<Symbol>, itinerary: Itinerary, tape: seq<SolverResult>): CheckOutcome
    decreases |tape|
  {
    var r := AsCoreQueryResult(NextAnswer(tape), lits);
    var rd := CheckRound(pending, k, r, itinerary);
    var asked := [UnsatQuery(lits, ConjoinEncodings(pending, k), r)];
    if !rd.again then CheckOutcome(rd.left, rd.sent, rd.bvc, asked, RestOfTape(tape))
    else
      assert tape != [];
      Prefixed(rd.sent, rd.bvc, asked, CheckLoop(rd.left, k, lits, itinerary, RestOfTape(tape)))
  }

  /** `CheckLoop` is one pass followed, when the pass goes round again, by the rest of the loop. */
  lemma CheckLoopUnfold(pending: seq<Id>, k: nat, lits: seq<Symbol>, itinerary: Itinerary, tape: seq<SolverResult>)
    ensures var r := AsCoreQueryResult(NextAnswer(tape), lits);
      var rd := CheckRound(pending, k, r, itinerary);
      var asked := [UnsatQuery(lits, ConjoinEncodings(pending, k), r)];
      CheckLoop(pending, k, lits, itinerary, tape)
        == if rd.again then Prefixed(rd.sent, rd.bvc, asked, CheckLoop(rd.left, k, lits, itinerary, RestOfTape(tape)))
           else CheckOutcome(rd.left, rd.sent, rd.bvc, asked, RestOfTape(tape))
  {
  }

  /** The accounting of one pass of `checkProperties`' loop: what is left of the loop after it. */
  lemma CheckAdvance(o0: CheckOutcome, sent: seq<Delivery>, bvc: seq<string>, commands: seq<Command>,
                     pending: seq<Id>, k: nat, lits: seq<Symbol>, itinerary: Itinerary, tape: seq<SolverResult>)
    requires o0 == Prefixed(sent, bvc, commands, CheckLoop(pending, k, lits, itinerary, tape))
    ensures var r := AsCoreQueryResult(NextAnswer(tape), lits);
      var rd := CheckRound(pending, k, r, itinerary);
      var asked := [UnsatQuery(lits, ConjoinEncodings(pending, k), r)];
      && (rd.again ==> o0 == Prefixed(sent + rd.sent, bvc + rd.bvc, commands + asked, CheckLoop(rd.left, k, lits, itinerary, RestOfTape(tape))))
      && (!rd.again ==> o0 == CheckOutcome(rd.left, sent + rd.sent, bvc + rd.bvc, commands + asked, RestOfTape(tape)))
  {
    var r := AsCoreQueryResult(NextAnswer(tape), lits);
    var rd := CheckRound(pending, k, r, itinerary);
    var asked := [UnsatQuery(lits, ConjoinEncodings(pending, k), r)];
    CheckLoopUnfold(pending, k, lits, itinerary, tape);
    if rd.again {
      PrefixedTwice(sent, bvc, commands, rd.sent, rd.bvc, asked, CheckLoop(rd.left, k, lits, itinerary, RestOfTape(tape)));
    }
  }

  /** One pass settles exactly the properties that leave the pending list. */
  lemma RoundPartition(pending: seq<Id>, k: nat, r: SolverResult, itinerary: Itinerary)
    ensures var rd := CheckRound(pending, k, r, itinerary);
      multiset(pending) == multiset(rd.left) + multiset(Settled(rd.sent))
  {
    var rd := CheckRound(pending, k, r, itinerary);
    if !r.Unsat? && r.model.Some? {
      var m := r.model.value;
      var bad := FalseProperties(pending, k, m);
      FalsePropertiesPartition(pending, bad, k, m);
      assert Settled(rd.sent) == bad;
    } else if !r.Unsat? {
      assert Settled(rd.sent) == pending;
    }
  }

  /**
   * Every pending property either stays pending or is settled by exactly one Invalid or
   * Unknown message of this step: the pending list never grows and nothing is reported twice.
   */
  lemma {:induction false} CheckLoopPartition(pending: seq<Id>, k: nat, lits: seq<Symbol>, itinerary: Itinerary, tape: seq<SolverResult>)
    ensures var o := CheckLoop(pending, k, lits, itinerary, tape);
      multiset(pending) == multiset(o.pending) + multiset(Settled(o.sent))
    decreases |tape|
  {
    var r := AsCoreQueryResult(NextAnswer(tape), lits);
    var rd := CheckRound(pending, k, r, itinerary);
    RoundPartition(pending, k, r, itinerary);
    if rd.again {
      var o' := CheckLoop(rd.left, k, lits, itinerary, RestOfTape(tape));
      CheckLoopPartition(rd.left, k, lits, itinerary, RestOfTape(tape));
      SettledAppend(rd.sent, o'.sent);
    }
  }

  /** The Invalid and Unknown messages of step `k`, as `checkProperties` sends them. */
  predicate StepReport(d: Delivery, pending: seq<Id>, k: nat, itinerary: Itinerary) {
    if d.ToAll? then
      && d.msg.InvalidMessage? && d.msg.source == Name && d.msg.length == k + 1 && d.msg.itinerary == itinerary
      && forall p :: p in d.msg.invalid ==> p in pending && FalseAt(d.msg.model, p, k)
    else
      && d.msg.UnknownMessage? && d.msg.source == Name
      && forall p :: p in d.msg.unknown ==> p in pending
  }

  /** A report about some of the pending properties is a report about all of them. */
  lemma StepReportWiden(d: Delivery, pending: seq<Id>, pending': seq<Id>, k: nat, itinerary: Itinerary)
    requires StepReport(d, pending', k, itinerary)
    requires forall p :: p in pending' ==> p in pending
    ensures StepReport(d, pending, k, itinerary)
  {
  }

  lemma ReportsConcat(a: seq<Delivery>, b: seq<Delivery>, pending: seq<Id>, pending': seq<Id>, k: nat, itinerary: Itinerary)
    requires forall i :: 0 <= i < |a| ==> StepReport(a[i], pending, k, itinerary)
    requires forall i :: 0 <= i < |b| ==> StepReport(b[i], pending', k, itinerary)
    requires forall p :: p in pending' ==> p in pending
    ensures forall i :: 0 <= i < |a + b| ==> StepReport((a + b)[i], pending, k, itinerary)
  {
    forall i | |a| <= i < |a + b|
      ensures StepReport((a + b)[i], pending, k, itinerary)
    {
      StepReportWiden(b[i - |a|], pending, pending', k, itinerary);
    }
  }

  /** One pass reports only pending properties, and an Invalid one only with a model falsifying it. */
  lemma RoundReports(pending: seq<Id>, k: nat, r: SolverResult, itinerary: Itinerary)
    ensures var rd := CheckRound(pending, k, r, itinerary);
      && (forall i :: 0 <= i < |rd.sent| ==> StepReport(rd.sent[i], pending, k, itinerary))
      && (forall p :: p in rd.left ==> p in pending)
      && (forall i, p :: 0 <= i < |rd.sent| && rd.sent[i].msg.InvalidMessage? && p in rd.sent[i].msg.invalid ==> p !in rd.left)
  {
  }

  /** The reports of a whole `checkProperties(k)` loop started on `pending`. */
  predicate LoopReports(o: CheckOutcome, pending: seq<Id>, k: nat, itinerary: Itinerary) {
    && (forall i :: 0 <= i < |o.sent| ==> StepReport(o.sent[i], pending, k, itinerary))
    && (forall p :: p in o.pending ==> p in pending)
    && (forall i, p :: 0 <= i < |o.sent| && o.sent[i].msg.InvalidMessage? && p in o.sent[i].msg.invalid ==> p !in o.pending)
  }

  /**
   * Soundness of reporting: an Invalid message of step `k` has length `k+1` and names only
   * pending properties its model falsifies at step `k`; the only other messages are Unknown;
   * a property that is reported Invalid no longer pends.
   */
  lemma {:induction false} CheckLoopReports(pending: seq<Id>, k: nat, lits: seq<Symbol>, itinerary: Itinerary, tape: seq<SolverResult>)
    ensures LoopReports(CheckLoop(pending, k, lits, itinerary, tape), pending, k, itinerary)
    decreases |tape|
  {
    var r := AsCoreQueryResult(NextAnswer(tape), lits);
    var rd := CheckRound(pending, k, r, itinerary);
    RoundReports(pending, k, r, itinerary);
    if rd.again {
      var o := CheckLoop(pending, k, lits, itinerary, tape);
      var o' := CheckLoop(rd.left, k, lits, itinerary, RestOfTape(tape));
      CheckLoopReports(rd.left, k, lits, itinerary, RestOfTape(tape));
      assert o.sent == rd.sent + o'.sent && o.pending == o'.pending;
      ReportsConcat(rd.sent, o'.sent, pending, rd.left, k, itinerary);
    }
  }

  /** The assertions `assertProperties(k)` adds: every property of the specification, at step `k`. */
  function PropertyAsserts(props: seq<Expr>, k: int): (r: seq<Command>)
    ensures |r| == |props|
    ensures forall i :: 0 <= i < |props| ==> r[i] == Assert(At(props[i], k))
  {
    if props == [] then [] else PropertyAsserts(props[..|props| - 1], k) + [Assert(At(props[|props| - 1], k))]
  }

  /** The pending list after one message: Valid and Invalid messages remove their properties, nothing adds. */
  function AfterMessage(pending: seq<Id>, m: Message): (r: seq<Id>)
    ensures multiset(r) <= multiset(pending)
    ensures m.ValidMessage? ==> forall p :: p in r <==> p in pending && p !in m.valid
    ensures m.InvalidMessage? ==> forall p :: p in r <==> p in pending && p !in m.invalid
    ensures !m.ValidMessage? && !m.InvalidMessage? ==> r == pending
  {
    match m
    case ValidMessage(_, valid, _, _, _, _) => RemoveAll(pending, valid)
    case InvalidMessage(_, invalid, _, _, _) => RemoveAll(pending, invalid)
    case _ => pending
  }

  /** Receiving the same message twice has the effect of receiving it once. */
  lemma AfterMessageIdempotent(pending: seq<Id>, m: Message)
    ensures AfterMessage(AfterMessage(pending, m), m) == AfterMessage(pending, m)
  {
    match m
    case ValidMessage(_, valid, _, _, _, _) => RemoveAllIdempotent(pending, valid);
    case InvalidMessage(_, invalid, _, _, _) => RemoveAllIdempotent(pending, invalid);
    case _ =>
  }

  /** The pending list after a batch of messages, handled in order. */
  function AfterBatch(pending: seq<Id>, batch: seq<Message>): (r: seq<Id>)
    ensures multiset(r) <= multiset(pending)
  {
    if batch == [] then pending else AfterMessage(AfterBatch(pending, batch[..|batch| - 1]), batch[|batch| - 1])
  }

  /** The properties a message announces as valid. */
  function ValidOf(m: Message): seq<Id> {
    if m.ValidMessage? then m.valid else []
  }

  /** The properties Valid messages in a batch announce, in order. */
  function ValidIds(batch: seq<Message>): seq<Id> {
    if batch == [] then [] else ValidIds(batch[..|batch| - 1]) + ValidOf(batch[|batch| - 1])
  }

  /** Handling one more message of a batch extends both the pending list and the announced list by that message. */
  lemma BatchStep(pending: seq<Id>, batch: seq<Message>, i: nat)
    requires i < |batch|
    ensures AfterBatch(pending, batch[..i + 1]) == AfterMessage(AfterBatch(pending, batch[..i]), batch[i])
    ensures ValidIds(batch[..i + 1]) == ValidIds(batch[..i]) + ValidOf(batch[i])
  {
    assert batch[..i + 1][..i] == batch[..i];
  }

  /** The steps of the BaseStep messages among `ds`, in order. */
  function BaseSteps(ds: seq<Delivery>): seq<int> {
    if ds == [] then []
    else BaseSteps(ds[..|ds| - 1]) + (if ds[|ds| - 1].msg.BaseStepMessage? then [ds[|ds| - 1].msg.step] else [])
  }

  lemma {:induction false} BaseStepsAppend(a: seq<Delivery>, b: seq<Delivery>)
    ensures BaseSteps(a + b) == BaseSteps(a) + BaseSteps(b)
    decreases |b|
  {
    if b == [] {
      assert a + b == a;
    } else {
      assert (a + b)[..|a + b| - 1] == a + b[..|b| - 1];
      BaseStepsAppend(a, b[..|b| - 1]);
    }
  }

  /** `1, 2, ..., n`. */
  function Steps(n: nat): (r: seq<int>)
    ensures |r| == n && forall i :: 0 <= i < n ==> r[i] == i + 1
  {
    if n == 0 then [] else Steps(n - 1) + [n]
  }

  /**
   * Every message `main` sends, about properties among `props`: an Invalid message has a length
   * within the bound and names only properties its model falsifies at the step before that
   * length; a BaseStep message announces a step within the bound; anything else is Unknown.
   */
  predicate BmcSends(d: Delivery, n: nat, itinerary: Itinerary, props: seq<Id>) {
    if d.ToAll? then
      || (&& d.msg.InvalidMessage? && d.msg.source == Name && 1 <= d.msg.length <= n && d.msg.itinerary == itinerary
          && forall p :: p in d.msg.invalid ==> p in props && FalseAt(d.msg.model, p, d.msg.length - 1))
      || (&& d.msg.BaseStepMessage? && 1 <= d.msg.step <= n
          && forall p :: p in d.msg.properties ==> p in props)
    else
      && d.msg.UnknownMessage? && d.msg.source == Name
      && forall p :: p in d.msg.unknown ==> p in props
  }

  /**
   * What one step `k` of `main` sends: reports of step `k` (Invalid ones of length `k+1`),
   * then the BaseStep message for `k+1`, the only BaseStep message among them.
   */
  predicate StepSends(step: seq<Delivery>, n: nat, itinerary: Itinerary, props: seq<Id>, k: nat) {
    && step != [] && step[|step| - 1].ToAll? && step[|step| - 1].msg.BaseStepMessage?
    && step[|step| - 1].msg.step == k + 1
    && (forall i :: 0 <= i < |step| ==> BmcSends(step[i], n, itinerary, props))
    && (forall i :: 0 <= i < |step| - 1 ==>
          !step[i].msg.BaseStepMessage? && (step[i].msg.InvalidMessage? ==> step[i].msg.length == k + 1))
  }

  /** A message about fewer properties is a message about more. */
  lemma StepSendsWiden(step: seq<Delivery>, n: nat, itinerary: Itinerary, props: seq<Id>, props': seq<Id>, k: nat)
    requires StepSends(step, n, itinerary, props, k)
    requires multiset(props) <= multiset(props')
    ensures StepSends(step, n, itinerary, props', k)
  {
    forall p | p in props
      ensures p in props'
    {
      assert p in multiset(props);
    }
  }

  class BmcEngine {
    /** The step bound (`settings.n`). */
    const n: nat
    /** Name of the transition relation and the variables it ranges over. */
    const relation: string
    const vars: seq<VarDecl>
    /** The support units guarded by activation literals (`spec.node.ivc`). */
    const ivc: seq<Id>
    /** `propertiesExpr`: the properties as expressions, fixed when the engine is built. */
    const propertiesExpr: seq<Expr>
    const solver: Solver
    const director: Director
    var properties: seq<Id>
    var validProperties: seq<Id>
    /** Batches of incoming messages; each `processMessages` handles the next one. */
    var inbox: seq<seq<Message>>
    /** Contents of the append-mode `<filename>_bvc.xml` file. */
    var bvcFile: seq<string>

    constructor (n: nat, relation: string, vars: seq<VarDecl>, node: Node, solver: Solver, director: Director, inbox: seq<seq<Message>>)
      ensures this.n == n && this.relation == relation && this.vars == vars && this.ivc == node.ivc
      ensures properties == node.properties && propertiesExpr == String2Expr(node.properties)
      ensures validProperties == [] && bvcFile == [] && this.inbox == inbox
      ensures this.solver == solver && this.director == director
    {
      this.n := n;
      this.relation := relation;
      this.vars := vars;
      this.ivc := node.ivc;
      this.solver := solver;
      this.director := director;
      this.inbox := inbox;
      properties := node.properties;
      propertiesExpr := String2Expr(node.properties);
      validProperties := [];
      bvcFile := [];
    }

    /** `initializeSolver`: declares every activation literal, the transition relation and INIT. */
    method InitializeSolver()
      modifies solver
      ensures solver.tape == old(solver.tape) && solver.depth == old(solver.depth)
      ensures solver.log == old(solver.log) + DefineAll(LiteralDecls(ActivationLiterals(ivc)))
        + [Command.DefineRelation(relation), Command.Define(Decl(Init, BoolType))]
    {
      DefineDecls(solver, LiteralDecls(ActivationLiterals(ivc)));
      ghost var declared := solver.log;
      solver.DefineRel(relation);
      solver.DefineVar(Decl(Init, BoolType));
      assert solver.log == declared + [Command.DefineRelation(relation), Command.Define(Decl(Init, BoolType))];
      AppendAssoc(old(solver.log), DefineAll(LiteralDecls(ActivationLiterals(ivc))), [Command.DefineRelation(relation), Command.Define(Decl(Init, BoolType))]);
    }

    /** The `handleMessage` overloads: Invalid removes; Valid removes and records the properties as valid. */
    method HandleMessage(m: Message)
      modifies this
      ensures properties == AfterMessage(old(properties), m)
      ensures validProperties == old(validProperties) + ValidOf(m)
      ensures inbox == old(inbox) && bvcFile == old(bvcFile)
    {
      match m
      case InvalidMessage(_, invalid, _, _, _) =>
        properties := RemoveAll(properties, invalid);
      case ValidMessage(_, valid, _, _, _, _) =>
        properties := RemoveAll(properties, valid);
        validProperties := validProperties + valid;
      case _ =>
    }

    /** `processMessages`: handles, in order, the messages that arrived since the last call. */
    method ProcessMessages()
      modifies this
      ensures properties == AfterBatch(old(properties), if old(inbox) == [] then [] else old(inbox)[0])
      ensures validProperties == old(validProperties) + ValidIds(if old(inbox) == [] then [] else old(inbox)[0])
      ensures inbox == if old(inbox) == [] then [] else old(inbox)[1..]
      ensures bvcFile == old(bvcFile)
    {
      if inbox == [] {
        return;
      }
      var batch := inbox[0];
      inbox := inbox[1..];
      var i := 0;
      while i < |batch|
        invariant 0 <= i <= |batch|
        invariant properties == AfterBatch(old(properties), batch[..i])
        invariant validProperties == old(validProperties) + ValidIds(batch[..i])
        invariant inbox == old(inbox)[1..] && bvcFile == old(bvcFile)
      {
        BatchStep(old(properties), batch, i);
        AppendAssoc(old(validProperties), ValidIds(batch[..i]), ValidOf(batch[i]));
        HandleMessage(batch[i]);
        i := i + 1;
      }
      assert batch[..i] == batch;
    }

    /** One pass of the loop body of `checkProperties(k)`: one query, then as `CheckRound` says. */
    method CheckOnce(k: nat, lits: seq<Symbol>) returns (again: bool)
      modifies this, solver, director
      ensures var r := AsCoreQueryResult(NextAnswer(old(solver.tape)), lits);
        var rd := CheckRound(old(properties), k, r, director.invalidItinerary);
        && properties == rd.left && again == rd.again
        && director.sent == old(director.sent) + rd.sent
        && bvcFile == old(bvcFile) + rd.bvc
        && solver.log == old(solver.log) + [UnsatQuery(lits, ConjoinEncodings(old(properties), k), r)]
      ensures solver.tape == RestOfTape(old(solver.tape)) && solver.depth == old(solver.depth)
      ensures validProperties == old(validProperties) && inbox == old(inbox)
    {
      var result := solver.CheckUnsatQuery(lits, ConjoinEncodings(properties, k));
      again := false;
      if result.Sat? || result.Unknown? {
        if result.model.None? {
          director.ReceiveMessage(UnknownMessage(Name, properties));
          properties := [];
          return;
        }
        var model := result.model.value;
        var bad := FalseProperties(properties, k, model);
        properties := RemoveAll(properties, bad);
        if result.Sat? {
          director.Broadcast(InvalidMessage(Name, bad, k + 1, model, director.invalidItinerary));
        } else {
          director.ReceiveMessage(UnknownMessage(Name, bad));
        }
      } else {
        bvcFile := bvcFile + BvcBlock(k, CoreNames(result.core));
      }
      again := properties != [] && result.Sat?;
    }

    /**
     * `checkProperties(k)`: the outcome is that of `CheckLoop` on the pending list and the
     * solver's answers, followed by one BaseStep message for `k+1` and the properties still pending.
     */
    method CheckProperties(k: nat)
      modifies this, solver, director
      ensures var o := CheckLoop(old(properties), k, ActivationLiterals(ivc), director.invalidItinerary, old(solver.tape));
        && properties == o.pending
        && director.sent == old(director.sent) + o.sent + [ToAll(BaseStepMessage(k + 1, properties))]
        && bvcFile == old(bvcFile) + o.bvc
        && solver.log == old(solver.log) + o.commands
        && solver.tape == o.tape
      ensures solver.depth == old(solver.depth)
      ensures validProperties == old(validProperties) && inbox == old(inbox)
    {
      CheckUntilDone(k, ActivationLiterals(ivc));
      director.Broadcast(BaseStepMessage(k + 1, properties));
    }

    /** The `do ... while` of `checkProperties(k)`, run to its end. */
    method CheckUntilDone(k: nat, lits: seq<Symbol>)
      modifies this, solver, director
      ensures var o := CheckLoop(old(properties), k, lits, director.invalidItinerary, old(solver.tape));
        && properties == o.pending
        && director.sent == old(director.sent) + o.sent
        && bvcFile == old(bvcFile) + o.bvc
        && solver.log == old(solver.log) + o.commands
        && solver.tape == o.tape
      ensures solver.depth == old(solver.depth)
      ensures validProperties == old(validProperties) && inbox == old(inbox)
    {
      ghost var it := director.invalidItinerary;
      ghost var o0 := CheckLoop(properties, k, lits, it, solver.tape);
      ghost var sent, bvc, commands := [], [], [];
      PrefixedNothing(o0);
      var again := true;
      while again
        invariant validProperties == old(validProperties) && inbox == old(inbox) && solver.depth == old(solver.depth)
        invariant director.sent == old(director.sent) + sent
        invariant bvcFile == old(bvcFile) + bvc
        invariant solver.log == old(solver.log) + commands
        invariant again ==> o0 == Prefixed(sent, bvc, commands, CheckLoop(properties, k, lits, it, solver.tape))
        invariant !again ==> o0 == CheckOutcome(properties, sent, bvc, commands, solver.tape)
        decreases if again then |solver.tape| + 1 else 0
      {
        ghost var pending, tape := properties, solver.tape;
        ghost var r := AsCoreQueryResult(NextAnswer(tape), lits);
        ghost var rd := CheckRound(pending, k, r, it);
        ghost var asked := [UnsatQuery(lits, ConjoinEncodings(pending, k), r)];
        CheckAdvance(o0, sent, bvc, commands, pending, k, lits, it, tape);
        again := CheckOnce(k, lits);
        assert properties == rd.left && again == rd.again && solver.tape == RestOfTape(tape);
        AppendAssoc(old(director.sent), sent, rd.sent);
        AppendAssoc(old(bvcFile), bvc, rd.bvc);
        AppendAssoc(old(solver.log), commands, asked);
        sent, bvc, commands := sent + rd.sent, bvc + rd.bvc, commands + asked;
      }
    }

    /** `assertProperties(k)`: asserts every property of the specification at step `k`. */
    method AssertProperties(k: int)
      modifies solver
      ensures solver.log == old(solver.log) + PropertyAsserts(propertiesExpr, k)
      ensures solver.tape == old(solver.tape) && solver.depth == old(solver.depth)
    {
      var i := 0;
      while i < |propertiesExpr|
        invariant 0 <= i <= |propertiesExpr|
        invariant solver.log == old(solver.log) + PropertyAsserts(propertiesExpr[..i], k)
        invariant solver.tape == old(solver.tape) && solver.depth == old(solver.depth)
      {
        solver.AssertTerm(At(propertiesExpr[i], k));
        assert propertiesExpr[..i + 1][..i] == propertiesExpr[..i];
        i := i + 1;
      }
      assert propertiesExpr[..i] == propertiesExpr;
    }

    /**
     * One step of `main`'s loop: unroll step `k`, assert the transition into it, run
     * `checkProperties(k)` and assume the properties at `k`. What it sends ends with the
     * BaseStep message for `k+1`, which is the only BaseStep message among them.
     */
    method RunStep(k: nat) returns (ghost step: seq<Delivery>)
      requires k < n
      modifies this, solver, director
      ensures var o := CheckLoop(old(properties), k, ActivationLiterals(ivc), director.invalidItinerary, old(solver.tape));
        && properties == o.pending
        && step == o.sent + [ToAll(BaseStepMessage(k + 1, properties))]
        && bvcFile == old(bvcFile) + o.bvc
        && solver.tape == o.tape
        && solver.log == old(solver.log) + CreateVariablesCommands(vars, k) + [Assert(BaseTransition(relation, vars, k))]
             + o.commands + PropertyAsserts(propertiesExpr, k)
      ensures director.sent == old(director.sent) + step
      ensures StepSends(step, n, director.invalidItinerary, old(properties), k)
      ensures multiset(properties) <= multiset(old(properties))
      ensures validProperties == old(validProperties) && inbox == old(inbox) && solver.depth == old(solver.depth)
    {
      CreateVariables(solver, vars, k);
      solver.AssertTerm(BaseTransition(relation, vars, k));
      ghost var pending := properties;
      ghost var o := CheckLoop(properties, k, ActivationLiterals(ivc), director.invalidItinerary, solver.tape);
      CheckLoopReports(properties, k, ActivationLiterals(ivc), director.invalidItinerary, solver.tape);
      CheckLoopPartition(properties, k, ActivationLiterals(ivc), director.invalidItinerary, solver.tape);
      CheckProperties(k);
      AssertProperties(k);
      ghost var last := ToAll(BaseStepMessage(k + 1, properties));
      step := o.sent + [last];
      AppendAssoc(old(director.sent), o.sent, [last]);
      ReportsAreSends(o.sent, pending, k, n, director.invalidItinerary);
      assert BmcSends(last, n, director.invalidItinerary, pending);
      assert step[|step| - 1] == last;
      assert forall i :: 0 <= i < |step| - 1 ==> step[i] == o.sent[i];
    }

    /**
     * `main`: for k = 0 .. n-1, drain messages, stop at once if nothing is pending, otherwise
     * unroll step k, check it and assume the properties at k. After n steps the remaining
     * properties are reported Unknown. The pending list never grows; BaseStep messages
     * announce 1, 2, ... in order, one per step run.
     */
    method Run() returns (ghost stoppedEarly: bool, ghost steps: nat, ghost body: seq<Delivery>)
      modifies this, solver, director
      ensures multiset(properties) <= multiset(old(properties))
      ensures director.sent == old(director.sent) + body + (if stoppedEarly then [] else [ToDirector(UnknownMessage(Name, properties))])
      ensures MainSends(body, n, director.invalidItinerary, steps, old(properties))
      ensures stoppedEarly ==> properties == [] && steps < n
      ensures !stoppedEarly ==> steps == n
      ensures solver.depth == old(solver.depth)
    {
      body := [];
      CreateVariables(solver, vars, -1);
      var stopped := false;
      var k := 0;
      while k < n
        invariant 0 <= k <= n
        invariant multiset(properties) <= multiset(old(properties))
        invariant director.sent == old(director.sent) + body
        invariant MainSends(body, n, director.invalidItinerary, k, old(properties))
        invariant solver.depth == old(solver.depth)
      {
        ghost var before := properties;
        ghost var step;
        stopped, step := Iterate(k);
        ShrinkTrans(properties, before, old(properties));
        if stopped {
          break;
        }
        StepSendsWiden(step, n, director.invalidItinerary, before, old(properties), k);
        AppendAssoc(old(director.sent), body, step);
        MainSendsStep(body, step, n, director.invalidItinerary, k, old(properties));
        body := body + step;
        k := k + 1;
      }
      stoppedEarly, steps := stopped, k;
      if !stopped {
        SendUnknown(properties);
      }
    }

    /** One iteration of `main`'s loop: drain a batch of messages, then, unless nothing is pending, step `k`. */
    method Iterate(k: nat) returns (stopped: bool, ghost step: seq<Delivery>)
      requires k < n
      modifies this, solver, director
      ensures var drained := AfterBatch(old(properties), if old(inbox) == [] then [] else old(inbox)[0]);
        var o := CheckLoop(drained, k, ActivationLiterals(ivc), director.invalidItinerary, old(solver.tape));
        && (stopped <==> drained == [])
        && (stopped ==> properties == [] && step == [] && solver.log == old(solver.log) && bvcFile == old(bvcFile))
        && (!stopped ==>
              && properties == o.pending
              && step == o.sent + [ToAll(BaseStepMessage(k + 1, properties))]
              && bvcFile == old(bvcFile) + o.bvc
              && solver.tape == o.tape
              && solver.log == old(solver.log) + CreateVariablesCommands(vars, k) + [Assert(BaseTransition(relation, vars, k))]
                   + o.commands + PropertyAsserts(propertiesExpr, k))
      ensures director.sent == old(director.sent) + step
      ensures !stopped ==> StepSends(step, n, director.invalidItinerary, old(properties), k)
      ensures multiset(properties) <= multiset(old(properties))
      ensures solver.depth == old(solver.depth)
    {
      step := [];
      ProcessMessages();
      if properties == [] {
        return true, step;
      }
      ghost var drained := properties;
      step := RunStep(k);
      ShrinkTrans(properties, drained, old(properties));
      StepSendsWiden(step, n, director.invalidItinerary, drained, old(properties), k);
      stopped := false;
    }

    /** `sendUnknown(ids)`: tells the director that `ids` stay unknown. */
    method SendUnknown(ids: seq<Id>)
      modifies director
      ensures director.sent == old(director.sent) + [ToDirector(UnknownMessage(Name, ids))]
    {
      director.ReceiveMessage(UnknownMessage(Name, ids));
    }
  }

  /**
   * What `main` has sent after `steps` steps: only messages it may send about the original
   * properties `props`; the BaseStep messages announce 1, 2, ..., `steps` in order; and each
   * Invalid message was found at the step it follows, its length being one more than the
   * number of BaseStep messages before it.
   */
  predicate MainSends(out: seq<Delivery>, n: nat, itinerary: Itinerary, steps: nat, props: seq<Id>) {
    && (forall i :: 0 <= i < |out| ==> BmcSends(out[i], n, itinerary, props))
    && BaseSteps(out) == Steps(steps)
    && (forall i :: 0 <= i < |out| && out[i].msg.InvalidMessage? ==> out[i].msg.length == |BaseSteps(out[..i])| + 1)
  }

  lemma MainSendsStep(out: seq<Delivery>, step: seq<Delivery>, n: nat, itinerary: Itinerary, k: nat, props: seq<Id>)
    requires MainSends(out, n, itinerary, k, props)
    requires StepSends(step, n, itinerary, props, k)
    ensures MainSends(out + step, n, itinerary, k + 1, props)
  {
    var reports := step[..|step| - 1];
    var last := step[|step| - 1];
    assert step == reports + [last];
    NoBaseSteps(reports);
    BaseStepsAppend(reports, [last]);
    assert BaseSteps([last]) == [k + 1] by {
      assert [last][..0] == [];
    }
    BaseStepsAppend(out, step);
    assert |BaseSteps(out)| == k;
    var all := out + step;
    forall i | 0 <= i < |all| && all[i].msg.InvalidMessage?
      ensures all[i].msg.length == |BaseSteps(all[..i])| + 1
    {
      if i < |out| {
        assert all[..i] == out[..i];
      } else {
        var j := i - |out|;
        assert all[i] == step[j] && j < |step| - 1;
        assert all[..i] == out + reports[..j];
        NoBaseSteps(reports[..j]);
        BaseStepsAppend(out, reports[..j]);
      }
    }
  }

  /** The literals declared as booleans. */
  function LiteralDecls(lits: seq<Symbol>): (r: seq<Decl>)
    ensures |r| == |lits|
    ensures forall i :: 0 <= i < |lits| ==> r[i] == Decl(lits[i], BoolType)
  {
    if lits == [] then [] else [Decl(lits[0], BoolType)] + LiteralDecls(lits[1..])
  }

  lemma NoBaseSteps(ds: seq<Delivery>)
    requires forall i :: 0 <= i < |ds| ==> !ds[i].msg.BaseStepMessage?
    ensures BaseSteps(ds) == []
  {
    if ds != [] {
      NoBaseSteps(ds[..|ds| - 1]);
    }
  }

  /** The reports of step `k < n` are messages `main` may send, Invalid ones of length `k+1`, and none of them is a BaseStep. */
  lemma ReportsAreSends(ds: seq<Delivery>, pending: seq<Id>, k: nat, n: nat, itinerary: Itinerary)
    requires k < n
    requires forall i :: 0 <= i < |ds| ==> StepReport(ds[i], pending, k, itinerary)
    ensures forall i :: 0 <= i < |ds| ==>
      && BmcSends(ds[i], n, itinerary, pending) && !ds[i].msg.BaseStepMessage?
      && (ds[i].msg.InvalidMessage? ==> ds[i].msg.length == k + 1)
  {
  }


}
