/**
 * The BMC-based consistency checker. For each property a Valid message routes to it, it
 * builds an over-approximation of the node that keeps only what the message's inductive
 * validity core (IVC) and its dependencies name, then unrolls that node for depths 0 .. n-1
 * with `quickCheckSat` under the IVC activation literals, assuming the property at each
 * depth already passed. An unsat core means the model is inconsistent with the property;
 * either way the Valid message is forwarded to the next engine of its itinerary.
 */
module ConsistencyChecker {
  import opened Collections
  import opened Lustre
  import opened Solvers
  import opened Messages
  import opened EngineBase
  import opened Text
  import Bmc

  const Name := "bmc-consistency-checker"

  /** `JKind.EQUATION_NAME`: the name given to equations added for assertions. */
  const EquationName := "__addedEQforAsrInconsis_by_JKind__"

  /** `removeAssertions`: the assertions whose printed form is in the IVC, in order. */
  function RemoveAssertions(assertions: seq<Expr>, ivc: seq<Id>): (r: seq<Expr>)
    ensures forall e :: e in r <==> e in assertions && ExprText(e) in ivc
    ensures Subsequence(r, assertions)
  {
    if assertions == [] then []
    else
      assert assertions == [assertions[0]] + assertions[1..];
      var tail := RemoveAssertions(assertions[1..], ivc);
      if ExprText(assertions[0]) in ivc then [assertions[0]] + tail else tail
  }

  /** `id` is a dependency of an IVC entry that has a dependency-map entry. */
  predicate Depended(id: Id, ivc: seq<Id>, depMap: map<Id, seq<Id>>) {
    exists c :: c in ivc && c in depMap && id in depMap[c]
  }

  /** The `depName` set of `removeEquations`: the names of the dependencies of every IVC entry. */
  function DependencyNames(ivc: seq<Id>, depMap: map<Id, seq<Id>>): (r: seq<Id>)
    ensures forall id :: id in r <==> Depended(id, ivc, depMap)
  {
    if ivc == [] then []
    else
      var tail := DependencyNames(ivc[1..], depMap);
      assert forall c :: c in ivc <==> c == ivc[0] || c in ivc[1..];
      (if ivc[0] in depMap then depMap[ivc[0]] else []) + tail
  }

  /** The filter of `removeEquations`, given the dependency names. */
  function KeepEquations(equations: seq<Equation>, ivc: seq<Id>, depNames: seq<Id>): (r: seq<Equation>)
    ensures forall eq :: eq in r <==> eq in equations && (LhsId(eq) in ivc || LhsId(eq) in depNames)
    ensures Subsequence(r, equations)
  {
    if equations == [] then []
    else
      assert equations == [equations[0]] + equations[1..];
      var tail := KeepEquations(equations[1..], ivc, depNames);
      var id := LhsId(equations[0]);
      if id in ivc || id in depNames then [equations[0]] + tail else tail
  }

  /**
   * `removeEquations`: an equation is kept, in order, iff its first left-hand identifier is in
   * the IVC or is a dependency of an IVC entry; entries without a dependency-map entry add nothing.
   */
  function RemoveEquations(equations: seq<Equation>, ivc: seq<Id>, depMap: map<Id, seq<Id>>): (r: seq<Equation>)
    ensures forall eq :: eq in r <==> eq in equations && (LhsId(eq) in ivc || Depended(LhsId(eq), ivc, depMap))
    ensures Subsequence(r, equations)
  {
    KeepEquations(equations, ivc, DependencyNames(ivc, depMap))
  }

  /** Some equation defines `id`. */
  predicate Defines(equations: seq<Equation>, id: Id) {
    exists eq :: eq in equations && LhsId(eq) == id
  }

  /** The `left` list of `removeVariable`: the first left-hand identifier of every equation. */
  function LeftIds(equations: seq<Equation>): (r: seq<Id>)
    ensures forall id :: id in r <==> Defines(equations, id)
  {
    if equations == [] then []
    else
      assert forall eq :: eq in equations <==> eq == equations[0] || eq in equations[1..];
      [LhsId(equations[0])] + LeftIds(equations[1..])
  }

  function KeepDefined(vars: seq<VarDecl>, left: seq<Id>): (r: seq<VarDecl>)
    ensures forall v :: v in r <==> v in vars && v.id in left
    ensures Subsequence(r, vars)
  {
    if vars == [] then []
    else
      assert vars == [vars[0]] + vars[1..];
      var tail := KeepDefined(vars[1..], left);
      if vars[0].id in left then [vars[0]] + tail else tail
  }

  /** `removeVariable`: the declarations, in order, of the variables some equation defines. */
  function RemoveVariable(vars: seq<VarDecl>, equations: seq<Equation>): (r: seq<VarDecl>)
    ensures forall v :: v in r <==> v in vars && Defines(equations, v.id)
    ensures Subsequence(r, vars)
  {
    KeepDefined(vars, LeftIds(equations))
  }

  /** `overApproximateWithIvc(prop, node, ivc, invariants)`: the node reduced to what the IVC needs, checking only `prop`. */
  function OverApproximate(prop: Id, node: Node, ivc: seq<Id>, depMap: map<Id, seq<Id>>): Node {
    var equations := RemoveEquations(node.equations, ivc, depMap);
    node.(properties := [prop],
          locals := RemoveVariable(node.locals, equations),
          outputs := RemoveVariable(node.outputs, equations),
          equations := equations,
          assertions := RemoveAssertions(node.assertions, ivc))
  }

  /**
   * The over-approximation is plain filtering: it keeps the name, the inputs and the IVC of
   * the node, exactly one property, the equations the IVC or its dependencies name, the
   * locals and outputs such an equation defines, and the assertions the IVC names, each in
   * its original order.
   */
  lemma OverApproximateKeeps(prop: Id, node: Node, ivc: seq<Id>, depMap: map<Id, seq<Id>>)
    ensures var r := OverApproximate(prop, node, ivc, depMap);
      && r.id == node.id && r.inputs == node.inputs && r.ivc == node.ivc && r.properties == [prop]
      && (forall eq :: eq in r.equations <==> eq in node.equations && (LhsId(eq) in ivc || Depended(LhsId(eq), ivc, depMap)))
      && (forall v :: v in r.locals <==> v in node.locals && Defines(r.equations, v.id))
      && (forall v :: v in r.outputs <==> v in node.outputs && Defines(r.equations, v.id))
      && (forall e :: e in r.assertions <==> e in node.assertions && ExprText(e) in ivc)
      && Subsequence(r.equations, node.equations) && Subsequence(r.locals, node.locals)
      && Subsequence(r.outputs, node.outputs) && Subsequence(r.assertions, node.assertions)
  {
  }

  /** `getAllAssigned(node)`: the ids of the locals, then of the outputs. */
  function GetAllAssigned(node: Node): (r: seq<Id>)
    ensures |r| == |node.locals| + |node.outputs|
    ensures forall i :: 0 <= i < |node.locals| ==> r[i] == node.locals[i].id
    ensures forall i :: 0 <= i < |node.outputs| ==> r[|node.locals| + i] == node.outputs[i].id
  {
    Ids(node.locals) + Ids(node.outputs)
  }

  /** The node a check runs on: the over-approximation, with every assigned variable as an IVC entry (`setIvcArgs`). */
  function LocalNode(prop: Id, node: Node, ivc: seq<Id>, depMap: map<Id, seq<Id>>): Node {
    var main := OverApproximate(prop, node, ivc, depMap);
    main.(ivc := GetAllAssigned(main))
  }

  /** What the report prints for an IVC entry defined by `eq`: the asserted expression for an equation added for an assertion, else the entry. */
  function RightSide(name: Id, eq: Equation, miniName: string): string {
    if Contains(name, miniName) || Contains(name, EquationName) then "assert (" + ExprText(eq.expr) + ")" else name
  }

  /** `findRightSide(ivc)`: the right side for the first equation defining the entry; `null` (None) when none does. */
  function FindRightSide(name: Id, equations: seq<Equation>, miniName: string): (r: Option<string>)
    ensures r.None? <==> !Defines(equations, name)
  {
    if equations == [] then None
    else if name == LhsId(equations[0]) then Some(RightSide(name, equations[0], miniName))
    else
      assert forall eq :: eq in equations <==> eq == equations[0] || eq in equations[1..];
      FindRightSide(name, equations[1..], miniName)
  }

  /** The right side found comes from the first equation defining the entry. */
  lemma {:induction false} FindRightSideFirst(name: Id, equations: seq<Equation>, miniName: string, i: nat)
    requires i < |equations| && LhsId(equations[i]) == name
    requires forall j :: 0 <= j < i ==> LhsId(equations[j]) != name
    ensures FindRightSide(name, equations, miniName) == Some(RightSide(name, equations[i], miniName))
  {
    if i > 0 {
      FindRightSideFirst(name, equations[1..], miniName, i - 1);
    }
  }

  /** The forwarded message (`sendValid`): the incoming one for `prop` alone, one hop further along its itinerary. */
  function Forwarded(prop: Id, vm: Message): (m: Message)
    requires vm.ValidMessage?
    ensures m.ValidMessage? && m.valid == [prop]
    ensures m.source == vm.source && m.k == vm.k && m.invariants == vm.invariants && m.ivc == vm.ivc
    ensures vm.itinerary != [] ==> [vm.itinerary[0]] + m.itinerary == vm.itinerary
  {
    ValidMessage(vm.source, [prop], vm.k, vm.invariants, vm.ivc, NextItinerary(vm.itinerary))
  }

  /** A message this checker acts on: a Valid message whose next destination is the checker. */
  predicate RoutedHere(m: Message) {
    m.ValidMessage? && NextDestination(m.itinerary) == Some(ConsistencyCheckerEngineType)
  }

  /** Whatever the checker works on that does not change while it runs. */
  datatype Setup = Setup(
    /** The bound `settings.n`. */
    n: nat,
    /** The name of the transition relation of every local specification. */
    relation: string,
    /** The main node of the specification. */
    node: Node,
    /** `spec.dependencyMap`, reduced to the dependency names of each entry. */
    depMap: map<Id, seq<Id>>,
    /** `MiniJKind.EQUATION_NAME`, whose value is not part of this model. */
    miniName: string)

  /** An inconsistency: the depth whose check was unsatisfiable, and the unsat core of activation literals. */
  datatype Inconsistency = Inconsistency(depth: nat, core: seq<Symbol>)

  /** What the unrolling of `checkConsistency` from some depth on sends to the solver and finds. */
  datatype Unrolling = Unrolling(commands: seq<Command>, tape: seq<SolverResult>, found: Option<Inconsistency>)

  /** The commands of one depth before its check: the variables, their constraints and the base transition. */
  function DepthCommands(relation: string, vars: seq<VarDecl>, k: nat, lits: seq<Symbol>, r: SolverResult): seq<Command> {
    CreateVariablesCommands(vars, k) + [Assert(BaseTransition(relation, vars, k)), QuickCheckSat(lits, r)]
  }

  /**
   * The `for k` loop of `checkConsistency`, from depth `k`: unroll one more depth and check it
   * under the activation literals; an unsat core ends the loop, otherwise the property is
   * assumed at that depth and the next one is checked, up to depth `n-1`.
   */
  function Unroll(relation: string, vars: seq<VarDecl>, lits: seq<Symbol>, prop: Id, n: nat, k: nat,
                  tape: seq<SolverResult>): Unrolling
    decreases n - k
  {
    if k >= n then Unrolling([], tape, None)
    else
      var r := AsCheckResult(NextAnswer(tape), lits);
      var head := DepthCommands(relation, vars, k, lits, r);
      if r.Unsat? then Unrolling(head, RestOfTape(tape), Some(Inconsistency(k, r.core)))
      else
        var rest := Unroll(relation, vars, lits, prop, n, k + 1, RestOfTape(tape));
        rest.(commands := head + [Assert(Sym(Stream(prop, k)))] + rest.commands)
  }

  /** An inconsistency is found at a depth below the bound, with a core of the literals the check named. */
  lemma {:induction false} UnrollFound(relation: string, vars: seq<VarDecl>, lits: seq<Symbol>, prop: Id, n: nat, k: nat,
                                       tape: seq<SolverResult>)
    ensures var u := Unroll(relation, vars, lits, prop, n, k, tape);
      u.found.Some? ==> k <= u.found.value.depth < n && forall s :: s in u.found.value.core ==> s in lits
    decreases n - k
  {
    if k < n && !AsCheckResult(NextAnswer(tape), lits).Unsat? {
      UnrollFound(relation, vars, lits, prop, n, k + 1, RestOfTape(tape));
    }
  }

  /** Declaring variables and asserting their constraints never asserts a property. */
  lemma NoPropertyInCreate(vars: seq<VarDecl>, k: int, prop: Id, j: int)
    ensures Assert(Sym(Stream(prop, j))) !in CreateVariablesCommands(vars, k)
  {
    var c := Assert(Sym(Stream(prop, j)));
    var defs := DefineAll(OffsetVarDecls(vars, k));
    assert CreateVariablesCommands(vars, k) == defs + ConstraintAsserts(vars, k);
    assert c !in defs;
    if c in ConstraintAsserts(vars, k) {
      ConstraintAssertsSound(vars, k, c);
      assert false;
    }
  }

  /** The depth at which the unrolling stopped checking: the inconsistent depth, or the bound. */
  function Reached(u: Unrolling, n: nat): nat {
    if u.found.Some? then u.found.value.depth else n
  }

  /**
   * The property is assumed exactly at the depths from `k` that were checked and found
   * consistent: never at the inconsistent depth nor beyond it.
   */
  lemma {:induction false} UnrollAssumes(relation: string, vars: seq<VarDecl>, lits: seq<Symbol>, prop: Id, n: nat, k: nat,
                                         tape: seq<SolverResult>, j: int)
    ensures var u := Unroll(relation, vars, lits, prop, n, k, tape);
      Assert(Sym(Stream(prop, j))) in u.commands <==> k <= j < Reached(u, n)
    decreases n - k
  {
    if k < n {
      var r := AsCheckResult(NextAnswer(tape), lits);
      var head := DepthCommands(relation, vars, k, lits, r);
      NoPropertyInCreate(vars, k, prop, j);
      assert Assert(Sym(Stream(prop, j))) !in head;
      if !r.Unsat? {
        UnrollAssumes(relation, vars, lits, prop, n, k + 1, RestOfTape(tape), j);
        UnrollFound(relation, vars, lits, prop, n, k + 1, RestOfTape(tape));
      }
    }
  }

  /** One depth of the loop, unfolded. */
  lemma UnrollUnfold(relation: string, vars: seq<VarDecl>, lits: seq<Symbol>, prop: Id, n: nat, k: nat,
                     tape: seq<SolverResult>)
    requires k < n
    ensures var r := AsCheckResult(NextAnswer(tape), lits);
      var head := DepthCommands(relation, vars, k, lits, r);
      var rest := Unroll(relation, vars, lits, prop, n, k + 1, RestOfTape(tape));
      Unroll(relation, vars, lits, prop, n, k, tape)
        == if r.Unsat? then Unrolling(head, RestOfTape(tape), Some(Inconsistency(k, r.core)))
           else rest.(commands := head + [Assert(Sym(Stream(prop, k)))] + rest.commands)
  {
  }

  const Rule66 := "------------------------------------------------------------------"
  const Rule67 := "-------------------------------------------------------------------"
  const Rule75 := "---------------------------------------------------------------------------"
  const Rule76 := "----------------------------------------------------------------------------"

  /** One report line per core entry, with what `findRightSide` gives for it (`null` when nothing). */
  function CoreLines(names: seq<Id>, equations: seq<Equation>, miniName: string): (r: seq<string>)
    ensures |r| == |names|
    ensures forall i :: 0 <= i < |names| ==> r[i] == "    - " + FindRightSide(names[i], equations, miniName).GetOr("null")
  {
    if names == [] then []
    else ["    - " + FindRightSide(names[0], equations, miniName).GetOr("null")] + CoreLines(names[1..], equations, miniName)
  }

  /** The console report of one consistency check. */
  function Report(prop: Id, found: Option<Inconsistency>, equations: seq<Equation>, miniName: string, n: nat): seq<string> {
    match found
    case Some(inc) =>
      [Rule66, "  Model is inconsistent with property \n         " + prop + ", at K = " + IntToString(inc.depth) + " with:"]
        + CoreLines(Bmc.CoreNames(inc.core), equations, miniName) + [Rule67]
    case None =>
      [Rule75, "  No inconsistency was found for \n        property " + prop + " to the depth of K = " + IntToString(n), Rule76]
  }

  /**
   * No core entry of a check reports `null`: the IVC of the local node is its assigned
   * variables, and the over-approximation keeps only variables a kept equation defines.
   */
  lemma CoreNamesDefined(prop: Id, s: Setup, ivc: seq<Id>, name: Id)
    requires name in LocalNode(prop, s.node, ivc, s.depMap).ivc
    ensures FindRightSide(name, LocalNode(prop, s.node, ivc, s.depMap).equations, s.miniName).Some?
  {
    var main := OverApproximate(prop, s.node, ivc, s.depMap);
    var all := GetAllAssigned(main);
    var i :| 0 <= i < |all| && all[i] == name;
    if i < |main.locals| {
      assert main.locals[i] in main.locals;
    } else {
      assert main.outputs[i - |main.locals|] in main.outputs;
    }
  }

  /** What a sequence of checks leaves behind: the properties left pending, and what was sent, printed and asked. */
  datatype Checks = Checks(
    left: seq<Id>,
    commands: seq<Command>,
    console: seq<string>,
    sent: seq<Delivery>,
    tape: seq<SolverResult>)

  /**
   * The check of one property (the body of `check`'s `if`): in a new scope, declare the
   * activation literals of the local node, its transition relation and INIT, unroll, and pop.
   */
  function OneCheck(s: Setup, prop: Id, vm: Message, tape: seq<SolverResult>): Checks
    requires vm.ValidMessage?
  {
    var local := LocalNode(prop, s.node, vm.ivc, s.depMap);
    var vars := NodeVarDecls(local);
    var lits := Bmc.ActivationLiterals(local.ivc);
    var u := Unroll(s.relation, vars, lits, prop, s.n, 0, tape);
    Checks([], [Push] + SetupCommands(s.relation, lits) + CreateVariablesCommands(vars, -1) + u.commands + [Pop],
           Report(prop, u.found, local.equations, s.miniName, s.n),
           [ToAll(Forwarded(prop, vm))],
           u.tape)
  }

  /** The declarations `check` makes before unrolling. */
  function SetupCommands(relation: string, lits: seq<Symbol>): seq<Command> {
    DefineAll(Bmc.LiteralDecls(lits)) + [Command.DefineRelation(relation), Command.Define(Decl(Init, BoolType))]
  }

  /** `a`, then `b`: what both send, print and ask, and what `b` leaves. */
  function Then(a: Checks, b: Checks): Checks {
    Checks(b.left, a.commands + b.commands, a.console + b.console, a.sent + b.sent, b.tape)
  }

  lemma ThenAssoc(a: Checks, b: Checks, c: Checks)
    ensures Then(Then(a, b), c) == Then(a, Then(b, c))
  {
    AppendAssoc(a.commands, b.commands, c.commands);
    AppendAssoc(a.console, b.console, c.console);
    AppendAssoc(a.sent, b.sent, c.sent);
  }

  /** Nothing sent, printed or asked; `pending` left as it is. */
  function Idle(pending: seq<Id>, tape: seq<SolverResult>): Checks {
    Checks(pending, [], [], [], tape)
  }

  /** `check(vm)` from the `i`-th property of the message on: only the properties still pending are checked, each once. */
  function CheckAll(s: Setup, pending: seq<Id>, ids: seq<Id>, vm: Message, tape: seq<SolverResult>): Checks
    requires vm.ValidMessage?
    decreases |ids|
  {
    if ids == [] then Idle(pending, tape)
    else if ids[0] in pending then
      var one := OneCheck(s, ids[0], vm, tape);
      Then(one, CheckAll(s, RemoveFirst(pending, ids[0]), ids[1..], vm, one.tape))
    else CheckAll(s, pending, ids[1..], vm, tape)
  }

  /** The properties `check` takes from the pending list, and the list it leaves. */
  datatype Claimed = Claimed(left: seq<Id>, checked: seq<Id>)

  function Claim(pending: seq<Id>, ids: seq<Id>): Claimed
    decreases |ids|
  {
    if ids == [] then Claimed(pending, [])
    else if ids[0] in pending then
      var r := Claim(RemoveFirst(pending, ids[0]), ids[1..]);
      Claimed(r.left, [ids[0]] + r.checked)
    else Claim(pending, ids[1..])
  }

  /** Checking moves properties from pending to checked: none is lost, none is checked twice. */
  lemma {:induction false} ClaimCounts(pending: seq<Id>, ids: seq<Id>)
    ensures var c := Claim(pending, ids); multiset(pending) == multiset(c.left) + multiset(c.checked)
    decreases |ids|
  {
    if ids != [] {
      if ids[0] in pending {
        var pending' := RemoveFirst(pending, ids[0]);
        ClaimCounts(pending', ids[1..]);
        var c := Claim(pending', ids[1..]);
        assert multiset(pending) == multiset(pending') + multiset{ids[0]};
        assert multiset([ids[0]] + c.checked) == multiset{ids[0]} + multiset(c.checked);
      } else {
        ClaimCounts(pending, ids[1..]);
      }
    }
  }

  /** Only properties of the message are checked, and every one of them still pending is. */
  lemma {:induction false} ClaimExact(pending: seq<Id>, ids: seq<Id>)
    ensures var c := Claim(pending, ids);
      && (forall p :: p in c.checked ==> p in ids)
      && (forall p :: p in ids && p in pending ==> p in c.checked)
    decreases |ids|
  {
    if ids != [] {
      assert forall p :: p in ids <==> p == ids[0] || p in ids[1..];
      if ids[0] in pending {
        var pending' := RemoveFirst(pending, ids[0]);
        ClaimExact(pending', ids[1..]);
        forall p | p in ids && p in pending && p != ids[0]
          ensures p in pending'
        {
          assert multiset(pending')[p] == multiset(pending)[p];
        }
      } else {
        ClaimExact(pending, ids[1..]);
      }
    }
  }

  /** One forwarded Valid message per checked property, in order. */
  function Forwards(checked: seq<Id>, vm: Message): (r: seq<Delivery>)
    requires vm.ValidMessage?
    ensures |r| == |checked|
    ensures forall i :: 0 <= i < |checked| ==> r[i] == ToAll(Forwarded(checked[i], vm))
  {
    if checked == [] then [] else [ToAll(Forwarded(checked[0], vm))] + Forwards(checked[1..], vm)
  }

  /**
   * `check` leaves pending exactly what `Claim` leaves, and sends exactly one forwarded Valid
   * message per claimed property, whatever the solver answers.
   */
  lemma {:induction false} CheckAllClaims(s: Setup, pending: seq<Id>, ids: seq<Id>, vm: Message, tape: seq<SolverResult>)
    requires vm.ValidMessage?
    ensures var c := CheckAll(s, pending, ids, vm, tape);
      c.left == Claim(pending, ids).left && c.sent == Forwards(Claim(pending, ids).checked, vm)
    decreases |ids|
  {
    if ids != [] {
      if ids[0] in pending {
        var one := OneCheck(s, ids[0], vm, tape);
        CheckAllClaims(s, RemoveFirst(pending, ids[0]), ids[1..], vm, one.tape);
      } else {
        CheckAllClaims(s, pending, ids[1..], vm, tape);
      }
    }
  }

  /** `handleMessage`: only a Valid message routed to the checker is acted on. */
  function Handle(s: Setup, pending: seq<Id>, m: Message, tape: seq<SolverResult>): Checks {
    if RoutedHere(m) then CheckAll(s, pending, m.valid, m, tape) else Idle(pending, tape)
  }

  /** Every message the checker sends forwards a Valid message for one property; it never sends Invalid. */
  predicate ForwardsOnly(ds: seq<Delivery>) {
    forall i :: 0 <= i < |ds| ==> ds[i].ToAll? && ds[i].msg.ValidMessage? && |ds[i].msg.valid| == 1
  }

  lemma HandleForwardsOnly(s: Setup, pending: seq<Id>, m: Message, tape: seq<SolverResult>)
    ensures ForwardsOnly(Handle(s, pending, m, tape).sent)
    ensures multiset(Handle(s, pending, m, tape).left) <= multiset(pending)
  {
    if RoutedHere(m) {
      CheckAllClaims(s, pending, m.valid, m, tape);
      ClaimCounts(pending, m.valid);
    }
  }

  /** `processMessages`: one batch of incoming messages, handled in order. */
  function HandleBatch(s: Setup, pending: seq<Id>, batch: seq<Message>, tape: seq<SolverResult>): Checks
    decreases |batch|
  {
    if batch == [] then Idle(pending, tape)
    else
      var h := Handle(s, pending, batch[0], tape);
      Then(h, HandleBatch(s, h.left, batch[1..], h.tape))
  }

  /** `main`: batches are handled until no property is pending or no message is left. */
  function Drain(s: Setup, pending: seq<Id>, inbox: seq<seq<Message>>, tape: seq<SolverResult>): Checks
    decreases |inbox|
  {
    if pending == [] || inbox == [] then Idle(pending, tape)
    else
      var h := HandleBatch(s, pending, inbox[0], tape);
      Then(h, Drain(s, h.left, inbox[1..], h.tape))
  }

  /** What `a` then `b` send is forwarded Valid messages only, and pending only shrinks, if so for each. */
  lemma ThenKeeps(pending: seq<Id>, a: Checks, b: Checks)
    requires ForwardsOnly(a.sent) && ForwardsOnly(b.sent)
    requires multiset(a.left) <= multiset(pending) && multiset(b.left) <= multiset(a.left)
    ensures ForwardsOnly(Then(a, b).sent) && multiset(Then(a, b).left) <= multiset(pending)
  {
    var ds := a.sent + b.sent;
    forall i | 0 <= i < |ds|
      ensures ds[i].ToAll? && ds[i].msg.ValidMessage? && |ds[i].msg.valid| == 1
    {
      if i >= |a.sent| {
        assert ds[i] == b.sent[i - |a.sent|];
      }
    }
  }

  lemma {:induction false} HandleBatchKeeps(s: Setup, pending: seq<Id>, batch: seq<Message>, tape: seq<SolverResult>)
    ensures var c := HandleBatch(s, pending, batch, tape);
      ForwardsOnly(c.sent) && multiset(c.left) <= multiset(pending)
    decreases |batch|
  {
    if batch != [] {
      var h := Handle(s, pending, batch[0], tape);
      HandleForwardsOnly(s, pending, batch[0], tape);
      HandleBatchKeeps(s, h.left, batch[1..], h.tape);
      ThenKeeps(pending, h, HandleBatch(s, h.left, batch[1..], h.tape));
    }
  }

  /**
   * Over a whole run the checker only forwards Valid messages, each for one property, never
   * reports anything Invalid, and never adds a pending property.
   */
  lemma {:induction false} DrainKeeps(s: Setup, pending: seq<Id>, inbox: seq<seq<Message>>, tape: seq<SolverResult>)
    ensures var c := Drain(s, pending, inbox, tape);
      ForwardsOnly(c.sent) && multiset(c.left) <= multiset(pending)
    decreases |inbox|
  {
    if pending != [] && inbox != [] {
      var h := HandleBatch(s, pending, inbox[0], tape);
      HandleBatchKeeps(s, pending, inbox[0], tape);
      DrainKeeps(s, h.left, inbox[1..], h.tape);
      ThenKeeps(pending, h, Drain(s, h.left, inbox[1..], h.tape));
    }
  }

  /** The unrolling, with `commands` already sent before it. */
  function After(commands: seq<Command>, u: Unrolling): Unrolling {
    u.(commands := commands + u.commands)
  }

  lemma AfterNothing(u: Unrolling)
    ensures After([], u) == u
  {
    assert [] + u.commands == u.commands;
  }

  /** One more depth of the unrolling, consistent so far, moves into the commands already sent. */
  lemma UnrollAdvance(relation: string, vars: seq<VarDecl>, lits: seq<Symbol>, prop: Id, n: nat, k: nat,
                      tape: seq<SolverResult>, commands: seq<Command>)
    requires k < n && !AsCheckResult(NextAnswer(tape), lits).Unsat?
    ensures var r := AsCheckResult(NextAnswer(tape), lits);
      var step := DepthCommands(relation, vars, k, lits, r) + [Assert(Sym(Stream(prop, k)))];
      After(commands, Unroll(relation, vars, lits, prop, n, k, tape))
        == After(commands + step, Unroll(relation, vars, lits, prop, n, k + 1, RestOfTape(tape)))
  {
    var r := AsCheckResult(NextAnswer(tape), lits);
    var step := DepthCommands(relation, vars, k, lits, r) + [Assert(Sym(Stream(prop, k)))];
    UnrollUnfold(relation, vars, lits, prop, n, k, tape);
    AppendAssoc(commands, step, Unroll(relation, vars, lits, prop, n, k + 1, RestOfTape(tape)).commands);
  }

  /** The accounting of one pass of the unrolling loop: an unsat check ends it, any other answer moves on. */
  lemma UnrollStep(relation: string, vars: seq<VarDecl>, lits: seq<Symbol>, prop: Id, n: nat, k: nat,
                   tape: seq<SolverResult>, commands: seq<Command>, goal: Unrolling)
    requires k < n
    requires goal == After(commands, Unroll(relation, vars, lits, prop, n, k, tape))
    ensures var r := AsCheckResult(NextAnswer(tape), lits);
      var head := DepthCommands(relation, vars, k, lits, r);
      && (r.Unsat? ==> goal == Unrolling(commands + head, RestOfTape(tape), Some(Inconsistency(k, r.core))))
      && (!r.Unsat? ==> goal == After(commands + head + [Assert(Sym(Stream(prop, k)))],
                                      Unroll(relation, vars, lits, prop, n, k + 1, RestOfTape(tape))))
  {
    if !AsCheckResult(NextAnswer(tape), lits).Unsat? {
      UnrollAdvance(relation, vars, lits, prop, n, k, tape, commands);
    }
  }

  /** Past the bound the unrolling has nothing more to send and finds nothing. */
  lemma EndOfUnroll(relation: string, vars: seq<VarDecl>, lits: seq<Symbol>, prop: Id, n: nat, k: nat,
                    tape: seq<SolverResult>, commands: seq<Command>, goal: Unrolling)
    requires k >= n
    requires goal == After(commands, Unroll(relation, vars, lits, prop, n, k, tape))
    ensures goal == Unrolling(commands, tape, None)
  {
    assert commands + [] == commands;
  }

  /** The report lines of a prefix of the core names grow by one line per name. */
  lemma CoreLinesStep(names: seq<Id>, equations: seq<Equation>, miniName: string, i: nat)
    requires i < |names|
    ensures CoreLines(names[..i + 1], equations, miniName)
      == CoreLines(names[..i], equations, miniName) + ["    - " + FindRightSide(names[i], equations, miniName).GetOr("null")]
  {
    var a := CoreLines(names[..i + 1], equations, miniName);
    var b := CoreLines(names[..i], equations, miniName) + ["    - " + FindRightSide(names[i], equations, miniName).GetOr("null")];
    assert |a| == |b|;
    forall j | 0 <= j < |a|
      ensures a[j] == b[j]
    {
      assert names[..i + 1][j] == names[j];
      if j < i {
        assert names[..i][j] == names[j];
      }
    }
  }

  /** Regrouping the commands of one check, sent one group at a time. */
  lemma OneCheckCommands(log: seq<Command>, declarations: seq<Command>, create: seq<Command>, unroll: seq<Command>)
    ensures log + [Push] + declarations + create + unroll + [Pop]
      == log + ([Push] + declarations + create + unroll + [Pop])
  {
    var x := [Push] + declarations + create + unroll + [Pop];
    assert (log + x)[..|log|] == log;
  }

  lemma ReportAssoc(console: seq<string>, header: seq<string>, core: seq<string>, footer: seq<string>)
    ensures console + header + core + footer == console + (header + core + footer)
  {
    var x := header + core + footer;
    assert (console + x)[..|console|] == console;
  }

  /** The BMC-based consistency checker engine. */
  class Checker {
    const setup: Setup
    const solver: Solver
    const director: Director
    /** Properties still to check for consistency (`properties`). */
    var properties: seq<Id>
    /** Batches of incoming messages; each `processMessages` handles the next one. */
    var inbox: seq<seq<Message>>
    /** Lines printed on the console (`Output.println`). */
    var console: seq<string>

    constructor (setup: Setup, solver: Solver, director: Director, inbox: seq<seq<Message>>)
      ensures this.setup == setup && this.solver == solver && this.director == director
      ensures properties == setup.node.properties && this.inbox == inbox && console == []
    {
      this.setup := setup;
      this.solver := solver;
      this.director := director;
      this.inbox := inbox;
      properties := setup.node.properties;
      console := [];
    }

    /** One depth of `checkConsistency`: create the step variables, assert the base transition, quick-check under the literals. */
    method CheckDepth(vars: seq<VarDecl>, lits: seq<Symbol>, k: nat) returns (r: SolverResult)
      modifies solver
      ensures r == AsCheckResult(NextAnswer(old(solver.tape)), lits)
      ensures solver.log == old(solver.log) + DepthCommands(setup.relation, vars, k, lits, r)
      ensures solver.tape == RestOfTape(old(solver.tape)) && solver.depth == old(solver.depth)
    {
      CreateVariables(solver, vars, k);
      ghost var created := solver.log;
      solver.AssertTerm(BaseTransition(setup.relation, vars, k));
      r := solver.CheckQuick(lits);
      assert solver.log == created + [Assert(BaseTransition(setup.relation, vars, k)), QuickCheckSat(lits, r)];
      AppendAssoc(old(solver.log), CreateVariablesCommands(vars, k), [Assert(BaseTransition(setup.relation, vars, k)), QuickCheckSat(lits, r)]);
    }

    /** The `for k` loop of `checkConsistency`: the inconsistency found, if any. */
    method UnrollDepths(prop: Id, vars: seq<VarDecl>, lits: seq<Symbol>) returns (found: Option<Inconsistency>)
      modifies solver
      ensures var u := Unroll(setup.relation, vars, lits, prop, setup.n, 0, old(solver.tape));
        && found == u.found
        && solver.log == old(solver.log) + u.commands
        && solver.tape == u.tape
      ensures solver.depth == old(solver.depth)
    {
      ghost var goal := Unroll(setup.relation, vars, lits, prop, setup.n, 0, solver.tape);
      ghost var commands: seq<Command> := [];
      AfterNothing(goal);
      var k := 0;
      while k < setup.n
        invariant k <= setup.n
        invariant goal == After(commands, Unroll(setup.relation, vars, lits, prop, setup.n, k, solver.tape))
        invariant solver.log == old(solver.log) + commands
        invariant solver.depth == old(solver.depth)
        decreases setup.n - k
      {
        ghost var tape := solver.tape;
        ghost var log := solver.log;
        var r := CheckDepth(vars, lits, k);
        UnrollStep(setup.relation, vars, lits, prop, setup.n, k, tape, commands, goal);
        AppendAssoc(old(solver.log), commands, DepthCommands(setup.relation, vars, k, lits, r));
        if r.Unsat? {
          return Some(Inconsistency(k, r.core));
        }
        solver.AssertTerm(Sym(Stream(prop, k)));
        AppendAssoc(old(solver.log), commands + DepthCommands(setup.relation, vars, k, lits, r), [Assert(Sym(Stream(prop, k)))]);
        commands := commands + DepthCommands(setup.relation, vars, k, lits, r) + [Assert(Sym(Stream(prop, k)))];
        k := k + 1;
      }
      EndOfUnroll(setup.relation, vars, lits, prop, setup.n, k, solver.tape, commands, goal);
      return None;
    }

    /** The loop of `checkConsistency` over the unsat core: one line per entry. */
    method PrintCore(names: seq<Id>, equations: seq<Equation>)
      modifies this
      ensures console == old(console) + CoreLines(names, equations, setup.miniName)
      ensures properties == old(properties) && inbox == old(inbox)
    {
      var i := 0;
      while i < |names|
        invariant i <= |names|
        invariant console == old(console) + CoreLines(names[..i], equations, setup.miniName)
        invariant properties == old(properties) && inbox == old(inbox)
      {
        CoreLinesStep(names, equations, setup.miniName, i);
        AppendAssoc(old(console), CoreLines(names[..i], equations, setup.miniName),
                    ["    - " + FindRightSide(names[i], equations, setup.miniName).GetOr("null")]);
        console := console + ["    - " + FindRightSide(names[i], equations, setup.miniName).GetOr("null")];
        i := i + 1;
      }
      assert names[..i] == names;
    }

    /** The console report of `checkConsistency`. */
    method PrintReport(prop: Id, found: Option<Inconsistency>, equations: seq<Equation>)
      modifies this
      ensures console == old(console) + Report(prop, found, equations, setup.miniName, setup.n)
      ensures properties == old(properties) && inbox == old(inbox)
    {
      if found.None? {
        console := console + [Rule75, "  No inconsistency was found for \n        property " + prop + " to the depth of K = " + IntToString(setup.n), Rule76];
        return;
      }
      var inc := found.value;
      var header := [Rule66, "  Model is inconsistent with property \n         " + prop + ", at K = " + IntToString(inc.depth) + " with:"];
      console := console + header;
      var names := Bmc.CoreNames(inc.core);
      PrintCore(names, equations);
      console := console + [Rule67];
      ReportAssoc(old(console), header, CoreLines(names, equations, setup.miniName), [Rule67]);
    }

    /** `sendValid`: forwards the message for `prop` alone, one hop further along its itinerary. */
    method SendValid(prop: Id, vm: Message)
      requires vm.ValidMessage?
      modifies director
      ensures director.sent == old(director.sent) + [ToAll(Forwarded(prop, vm))]
    {
      director.Broadcast(Forwarded(prop, vm));
    }

    /**
     * `checkConsistency`: the step -1 variables, the unrolling, the report, and the message
     * forwarded whether or not an inconsistency was found.
     */
    method CheckConsistency(prop: Id, vm: Message, local: Node)
      requires vm.ValidMessage?
      modifies this, solver, director
      ensures var vars := NodeVarDecls(local);
        var u := Unroll(setup.relation, vars, Bmc.ActivationLiterals(local.ivc), prop, setup.n, 0, old(solver.tape));
        && solver.log == old(solver.log) + CreateVariablesCommands(vars, -1) + u.commands
        && solver.tape == u.tape
        && console == old(console) + Report(prop, u.found, local.equations, setup.miniName, setup.n)
        && director.sent == old(director.sent) + [ToAll(Forwarded(prop, vm))]
      ensures solver.depth == old(solver.depth)
      ensures properties == old(properties) && inbox == old(inbox)
    {
      var vars := NodeVarDecls(local);
      CreateVariables(solver, vars, -1);
      var found := UnrollDepths(prop, vars, Bmc.ActivationLiterals(local.ivc));
      PrintReport(prop, found, local.equations);
      SendValid(prop, vm);
    }

    /** The declarations of `check`: the activation literals, the transition relation and INIT. */
    method Declare(lits: seq<Symbol>)
      modifies solver
      ensures solver.log == old(solver.log) + SetupCommands(setup.relation, lits)
      ensures solver.tape == old(solver.tape) && solver.depth == old(solver.depth)
    {
      DefineDecls(solver, Bmc.LiteralDecls(lits));
      ghost var declared := solver.log;
      solver.DefineRel(setup.relation);
      solver.DefineVar(Decl(Init, BoolType));
      assert solver.log == declared + [Command.DefineRelation(setup.relation), Command.Define(Decl(Init, BoolType))];
      AppendAssoc(old(solver.log), DefineAll(Bmc.LiteralDecls(lits)), [Command.DefineRelation(setup.relation), Command.Define(Decl(Init, BoolType))]);
    }

    /** The body of `check`'s `if`, once the property is taken from the pending list. */
    method CheckOne(prop: Id, vm: Message)
      requires vm.ValidMessage?
      modifies this, solver, director
      ensures var c := OneCheck(setup, prop, vm, old(solver.tape));
        && solver.log == old(solver.log) + c.commands && solver.tape == c.tape
        && console == old(console) + c.console && director.sent == old(director.sent) + c.sent
      ensures solver.depth == old(solver.depth)
      ensures properties == old(properties) && inbox == old(inbox)
    {
      solver.PushScope();
      var local := LocalNode(prop, setup.node, vm.ivc, setup.depMap);
      var lits := Bmc.ActivationLiterals(local.ivc);
      Declare(lits);
      CheckConsistency(prop, vm, local);
      solver.PopScope();
      OneCheckCommands(old(solver.log), SetupCommands(setup.relation, lits), CreateVariablesCommands(NodeVarDecls(local), -1),
                       Unroll(setup.relation, NodeVarDecls(local), lits, prop, setup.n, 0, old(solver.tape)).commands);
    }

    /** `check(vm)`: each property of the message still pending is taken from the list and checked. */
    method Check(vm: Message)
      requires vm.ValidMessage?
      modifies this, solver, director
      ensures var c := CheckAll(setup, old(properties), vm.valid, vm, old(solver.tape));
        && properties == c.left && solver.tape == c.tape
        && solver.log == old(solver.log) + c.commands
        && console == old(console) + c.console && director.sent == old(director.sent) + c.sent
      ensures solver.depth == old(solver.depth) && inbox == old(inbox)
    {
      ghost var start := Checks([], old(solver.log), old(console), old(director.sent), []);
      ghost var goal := Then(start, CheckAll(setup, properties, vm.valid, vm, solver.tape));
      ghost var done := start;
      var i := 0;
      while i < |vm.valid|
        invariant i <= |vm.valid|
        invariant goal == Then(done, CheckAll(setup, properties, vm.valid[i..], vm, solver.tape))
        invariant solver.log == done.commands && console == done.console
        invariant director.sent == done.sent
        invariant solver.depth == old(solver.depth) && inbox == old(inbox)
      {
        assert vm.valid[i..][0] == vm.valid[i] && vm.valid[i..][1..] == vm.valid[i + 1..];
        var p := vm.valid[i];
        if p in properties {
          ghost var one := OneCheck(setup, p, vm, solver.tape);
          ThenAssoc(done, one, CheckAll(setup, RemoveFirst(properties, p), vm.valid[i + 1..], vm, one.tape));
          properties := RemoveFirst(properties, p);
          CheckOne(p, vm);
          done := Then(done, one);
        }
        i := i + 1;
      }
      var c := CheckAll(setup, old(properties), vm.valid, vm, old(solver.tape));
      assert goal == Then(start, c);
      assert goal == Then(done, Idle(properties, solver.tape));
    }

    /** `handleMessage`: a Valid message routed to the checker is checked; every other message is ignored. */
    method HandleMessage(m: Message)
      modifies this, solver, director
      ensures var c := Handle(setup, old(properties), m, old(solver.tape));
        && properties == c.left && solver.tape == c.tape
        && solver.log == old(solver.log) + c.commands
        && console == old(console) + c.console && director.sent == old(director.sent) + c.sent
      ensures solver.depth == old(solver.depth) && inbox == old(inbox)
    {
      if RoutedHere(m) {
        Check(m);
      } else {
        assert solver.log + [] == solver.log && console + [] == console && director.sent + [] == director.sent;
      }
    }

    /** `processMessages`: handles, in order, the messages of the next batch. */
    method ProcessMessages()
      modifies this, solver, director
      ensures var c := HandleBatch(setup, old(properties), if old(inbox) == [] then [] else old(inbox)[0], old(solver.tape));
        && properties == c.left && solver.tape == c.tape
        && solver.log == old(solver.log) + c.commands
        && console == old(console) + c.console && director.sent == old(director.sent) + c.sent
      ensures inbox == if old(inbox) == [] then [] else old(inbox)[1..]
      ensures solver.depth == old(solver.depth)
    {
      if inbox == [] {
        assert solver.log + [] == solver.log && console + [] == console && director.sent + [] == director.sent;
        return;
      }
      var batch := inbox[0];
      inbox := inbox[1..];
      ghost var start := Checks([], old(solver.log), old(console), old(director.sent), []);
      ghost var goal := Then(start, HandleBatch(setup, properties, batch, solver.tape));
      ghost var done := start;
      var i := 0;
      while i < |batch|
        invariant i <= |batch|
        invariant goal == Then(done, HandleBatch(setup, properties, batch[i..], solver.tape))
        invariant solver.log == done.commands && console == done.console && director.sent == done.sent
        invariant solver.depth == old(solver.depth) && inbox == old(inbox)[1..]
      {
        assert batch[i..][0] == batch[i] && batch[i..][1..] == batch[i + 1..];
        ghost var h := Handle(setup, properties, batch[i], solver.tape);
        ThenAssoc(done, h, HandleBatch(setup, h.left, batch[i + 1..], h.tape));
        HandleMessage(batch[i]);
        done := Then(done, h);
        i := i + 1;
      }
      assert goal == Then(done, Idle(properties, solver.tape));
    }

    /** `main`: processes batches until no property is pending; a run whose messages run out ends there. */
    method Run()
      modifies this, solver, director
      ensures var c := Drain(setup, old(properties), old(inbox), old(solver.tape));
        && properties == c.left && solver.tape == c.tape
        && solver.log == old(solver.log) + c.commands
        && console == old(console) + c.console && director.sent == old(director.sent) + c.sent
      ensures properties == [] || inbox == []
      ensures solver.depth == old(solver.depth)
    {
      ghost var start := Checks([], old(solver.log), old(console), old(director.sent), []);
      ghost var goal := Then(start, Drain(setup, properties, inbox, solver.tape));
      ghost var done := start;
      while properties != [] && inbox != []
        invariant goal == Then(done, Drain(setup, properties, inbox, solver.tape))
        invariant solver.log == done.commands && console == done.console && director.sent == done.sent
        invariant solver.depth == old(solver.depth)
        decreases |inbox|
      {
        ghost var h := HandleBatch(setup, properties, inbox[0], solver.tape);
        ThenAssoc(done, h, Drain(setup, h.left, inbox[1..], h.tape));
        ProcessMessages();
        done := Then(done, h);
      }
      assert goal == Then(done, Idle(properties, solver.tape));
    }
  }
}
