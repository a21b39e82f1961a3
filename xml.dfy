/**
 * The XML result writer. Each `write*` operation appends lines to the output stream, here
 * the buffer `out`; the line functions below say which lines, and the lemmas what those
 * lines promise: one block per property in list order, numbered IVC sets, escaped
 * invariants, counterexample values only where they are known.
 */
module Writers {
  import opened Collections
  import opened Lustre
  import opened Text

  /** `escape` of one character: `<` and `>` become entities, everything else (`&` included) stays. */
  function EscapeChar(c: char): string {
    if c == '<' then "&lt;" else if c == '>' then "&gt;" else [c]
  }

  /** `escape`: the text with every `<` replaced by `&lt;`, then every `>` by `&gt;`. */
  function Escape(s: string): (r: string)
    ensures '<' !in r && '>' !in r
    ensures forall c :: c in r ==> c in s || c in "&lt;&gt;"
  {
    ReplaceChar(ReplaceChar(s, '<', "&lt;"), '>', "&gt;")
  }

  lemma {:induction false} ReplaceCharConcat(a: string, b: string, c: char, with: string)
    ensures ReplaceChar(a + b, c, with) == ReplaceChar(a, c, with) + ReplaceChar(b, c, with)
  {
    if a != [] {
      assert (a + b)[0] == a[0] && (a + b)[1..] == a[1..] + b;
      ReplaceCharConcat(a[1..], b, c, with);
      AppendAssoc(if a[0] == c then with else [a[0]], ReplaceChar(a[1..], c, with), ReplaceChar(b, c, with));
    } else {
      assert a + b == b;
    }
  }

  lemma {:induction false} ReplaceCharAbsent(s: string, c: char, with: string)
    requires c !in s
    ensures ReplaceChar(s, c, with) == s
  {
    if s != [] {
      assert s == [s[0]] + s[1..];
      ReplaceCharAbsent(s[1..], c, with);
    }
  }

  /** Escaping works character by character and changes nothing but `<` and `>`. */
  lemma EscapeConcat(a: string, b: string)
    ensures Escape(a + b) == Escape(a) + Escape(b)
  {
    ReplaceCharConcat(a, b, '<', "&lt;");
    ReplaceCharConcat(ReplaceChar(a, '<', "&lt;"), ReplaceChar(b, '<', "&lt;"), '>', "&gt;");
  }

  lemma EscapeOne(c: char)
    ensures Escape([c]) == EscapeChar(c)
  {
    assert [c][0] == c && [c][1..] == [];
    var once := ReplaceChar([c], '<', "&lt;");
    assert once == (if c == '<' then "&lt;" else [c]) + ReplaceChar([], '<', "&lt;");
    if c == '<' {
      assert once == "&lt;";
      ReplaceCharAbsent("&lt;", '>', "&gt;");
    } else {
      assert once == [c];
      assert ReplaceChar([c], '>', "&gt;") == (if c == '>' then "&gt;" else [c]) + ReplaceChar([], '>', "&gt;");
    }
  }

  /** Text without angle brackets is written unchanged. */
  lemma EscapeKeeps(s: string)
    requires '<' !in s && '>' !in s
    ensures Escape(s) == s
  {
    ReplaceCharAbsent(s, '<', "&lt;");
    ReplaceCharAbsent(s, '>', "&gt;");
  }

  /** `types.get(name)` as printed: the type's text, or `null` when the name has no type. */
  function TypeText(types: map<string, string>, name: string): string {
    if name in types then types[name] else "null"
  }

  /** The printed form of an interval end point (`getLow()` / `getHigh()`). */
  function EndpointText(e: Endpoint): string {
    match e
    case NegativeInfinity => "-inf"
    case PositiveInfinity => "inf"
    case Finite(text) => text
  }

  /** `BoolInterval.isTrue()`: the interval holding only `true`. */
  predicate IsTrueInterval(v: Value)
    requires v.BoolInterval?
  {
    v.low && v.high
  }

  /** `formatValue`: booleans as 1/0, numeric intervals as an `Interval` element, anything else as printed. */
  function FormatValue(v: Value): string {
    match v
    case BooleanValue(b) => if b then "1" else "0"
    case NumericInterval(lo, hi) => "<Interval low=\"" + EndpointText(lo) + "\" high=\"" + EndpointText(hi) + "\"/>"
    case BoolInterval(_, _) => if IsTrueInterval(v) then "1" else "0"
    case OtherValue(text) => text
  }

  /** Every boolean-valued kind prints as a single digit, `1` exactly for the true ones. */
  lemma FormatValueBits(v: Value)
    requires v.BooleanValue? || v.BoolInterval?
    ensures FormatValue(v) == "1" || FormatValue(v) == "0"
    ensures FormatValue(v) == "1" <==> (v.BooleanValue? && v.b) || (v.BoolInterval? && IsTrueInterval(v))
  {
  }

  /** A numeric interval is written as an element, never as a bare digit. */
  lemma FormatIntervalElement(v: Value)
    requires v.NumericInterval?
    ensures IsPrefix("<Interval low=\"", FormatValue(v))
  {
    var r := FormatValue(v);
    assert r == "<Interval low=\"" + (EndpointText(v.lowEnd) + "\" high=\"" + EndpointText(v.highEnd) + "\"/>");
  }

  /** One counterexample signal: its name and its value at each time step it is known for (`Signal<Value>`). */
  datatype Signal = Signal(name: string, values: map<nat, Value>)

  /** A counterexample: its length and its signals. */
  datatype Counterexample = Counterexample(length: nat, signals: seq<Signal>)

  /** One alternative IVC of `allIvcs`: its support set and its invariants as text. */
  datatype IvcSet = IvcSet(support: seq<string>, invariants: seq<string>)

  /** The status of a consistency-checker message and what it carries. */
  datatype ConsistencyResult =
    | Consistent
    | UnsatCore(entries: seq<string>)
    | WithCounterexample(cexs: seq<Counterexample>)

  /** One line per item, between the same opening and closing text, in order. */
  function Tagged(open: string, items: seq<string>, close: string): (r: seq<string>)
    ensures |r| == |items|
    ensures forall i :: 0 <= i < |items| ==> r[i] == open + items[i] + close
  {
    if items == [] then [] else Tagged(open, items[..|items| - 1], close) + [open + items[|items| - 1] + close]
  }

  lemma TaggedStep(open: string, items: seq<string>, close: string, i: nat)
    requires i < |items|
    ensures Tagged(open, items[..i + 1], close) == Tagged(open, items[..i], close) + [open + items[i] + close]
  {
    assert items[..i + 1][..i] == items[..i];
  }

  /** A signal shows a value at time `i` when it has one and it is not arbitrary. */
  predicate Shown(s: Signal, i: nat) {
    i in s.values && !IsArbitrary(s.values[i])
  }

  function ValueLine(i: nat, v: Value): string {
    "        <Value time=\"" + IntToString(i) + "\">" + FormatValue(v) + "</Value>"
  }

  /** The `for i` loop of `writeSignal` over times `0 .. k-1`. */
  function ValueLines(s: Signal, k: nat): seq<string> {
    if k == 0 then []
    else ValueLines(s, k - 1) + (if Shown(s, k - 1) then [ValueLine(k - 1, s.values[k - 1])] else [])
  }

  /** The times below `k` whose value is shown, in increasing order. */
  function ShownTimes(s: Signal, k: nat): (r: seq<nat>)
    ensures forall i: nat :: i in r <==> i < k && Shown(s, i)
    ensures forall j :: 0 <= j < |r| ==> r[j] < k && Shown(s, r[j])
    ensures forall a, b :: 0 <= a < b < |r| ==> r[a] < r[b]
  {
    if k == 0 then []
    else
      var before := ShownTimes(s, k - 1);
      assert forall j :: 0 <= j < |before| ==> before[j] < k - 1;
      before + (if Shown(s, k - 1) then [k - 1] else [])
  }

  /**
   * `writeSignal` writes exactly one value line per shown time below `k`, in increasing
   * time order: never a time at or past `k`, never an arbitrary value.
   */
  lemma {:induction false} ValueLinesShown(s: Signal, k: nat)
    ensures var times := ShownTimes(s, k);
      |ValueLines(s, k)| == |times|
      && forall j :: 0 <= j < |times| ==> ValueLines(s, k)[j] == ValueLine(times[j], s.values[times[j]])
  {
    if k > 0 {
      ValueLinesShown(s, k - 1);
    }
  }

  function SignalLines(types: map<string, string>, k: nat, s: Signal): seq<string> {
    ["      <Signal name=\"" + s.name + "\" type=\"" + TypeText(types, s.name) + "\">"] + ValueLines(s, k) + ["      </Signal>"]
  }

  /** The signals of a counterexample, each written up to the counterexample's length. */
  function SignalsLines(types: map<string, string>, k: nat, signals: seq<Signal>): seq<string> {
    if signals == [] then []
    else SignalsLines(types, k, signals[..|signals| - 1]) + SignalLines(types, k, signals[|signals| - 1])
  }

  lemma SignalsLinesStep(types: map<string, string>, k: nat, signals: seq<Signal>, i: nat)
    requires i < |signals|
    ensures SignalsLines(types, k, signals[..i + 1]) == SignalsLines(types, k, signals[..i]) + SignalLines(types, k, signals[i])
  {
    assert signals[..i + 1][..i] == signals[..i];
  }

  function CounterexampleLines(types: map<string, string>, cex: Counterexample): seq<string> {
    ["    <Counterexample>"] + SignalsLines(types, cex.length, cex.signals) + ["    </Counterexample>"]
  }

  function PropertyOpen(prop: string): string {
    "  <Property name=\"" + prop + "\">"
  }

  function RuntimeLine(runtime: string): string {
    "    <Runtime unit=\"sec\">" + runtime + "</Runtime>"
  }

  function KLine(k: int): string {
    "    <K>" + IntToString(k) + "</K>"
  }

  const PropertyClose := "  </Property>"

  /** The invariants of a valid block without alternative IVCs: printed and escaped. */
  function EscapedInvariants(invariants: seq<Expr>): seq<string> {
    seq(|invariants|, i requires 0 <= i < |invariants| => Escape(ExprText(invariants[i])))
  }

  function IvcSetBlock(ivcSet: IvcSet, number: int): seq<string> {
    ["    <IvcSet number=\"" + IntToString(number) + "\">"]
      + Tagged("    <Invariant>", ivcSet.invariants, "</Invariant>")
      + Tagged("    <Ivc>", ivcSet.support, "</Ivc>")
      + ["    </IvcSet>"]
  }

  /** The loop over `allIvcs`, with `count` starting at `first`. */
  function IvcSetsLines(sets: seq<IvcSet>, first: int): seq<string> {
    if sets == [] then []
    else IvcSetsLines(sets[..|sets| - 1], first) + IvcSetBlock(sets[|sets| - 1], first + |sets| - 1)
  }

  lemma IvcSetsStep(sets: seq<IvcSet>, first: int, i: nat)
    requires i < |sets|
    ensures IvcSetsLines(sets[..i + 1], first) == IvcSetsLines(sets[..i], first) + IvcSetBlock(sets[i], first + i)
  {
    assert sets[..i + 1][..i] == sets[..i];
  }

  lemma {:induction false} IvcSetsConcat(a: seq<IvcSet>, b: seq<IvcSet>, first: int)
    ensures IvcSetsLines(a + b, first) == IvcSetsLines(a, first) + IvcSetsLines(b, first + |a|)
    decreases |b|
  {
    if b == [] {
      assert a + b == a;
    } else {
      var b' := b[..|b| - 1];
      assert (a + b)[..|a + b| - 1] == a + b';
      IvcSetsConcat(a, b', first);
      AppendAssoc(IvcSetsLines(a, first), IvcSetsLines(b', first + |a|), IvcSetBlock(b[|b| - 1], first + |a| + |b| - 1));
    }
  }

  /**
   * The IVC sets are written in order and numbered consecutively: the set at position `i`
   * is the block numbered `first + i`, after the blocks of the sets before it.
   */
  lemma IvcSetsNumbered(sets: seq<IvcSet>, first: int, i: nat)
    requires i < |sets|
    ensures IvcSetsLines(sets, first)
      == IvcSetsLines(sets[..i], first) + IvcSetBlock(sets[i], first + i) + IvcSetsLines(sets[i + 1..], first + i + 1)
  {
    assert sets == sets[..i + 1] + sets[i + 1..];
    IvcSetsConcat(sets[..i + 1], sets[i + 1..], first);
    IvcSetsStep(sets, first, i);
  }

  /** What a valid block lists after its `<K>` line. */
  function ValidBody(invariants: seq<Expr>, ivc: seq<string>, allIvcs: seq<IvcSet>): seq<string> {
    if allIvcs == [] then
      Tagged("    <Invariant>", EscapedInvariants(invariants), "</Invariant>") + Tagged("    <Ivc>", ivc, "</Ivc>")
    else
      ["    <NumberOfIVCs>" + IntToString(|allIvcs|) + "</NumberOfIVCs>"]
        + Tagged("    <MustElem>", ivc, "</MustElem>")
        + IvcSetsLines(allIvcs, 1)
  }

  /** `writeValid(prop, …)`. */
  function ValidLines(prop: string, source: string, k: int, runtime: string,
                      invariants: seq<Expr>, ivc: seq<string>, allIvcs: seq<IvcSet>): seq<string> {
    [PropertyOpen(prop), RuntimeLine(runtime), "    <Answer source=\"" + source + "\">valid</Answer>", KLine(k)]
      + ValidBody(invariants, ivc, allIvcs) + [PropertyClose]
  }

  /**
   * Without alternative IVCs a valid block lists the escaped invariants and then the
   * support; with them it states how many there are, the must-elements, and sets numbered
   * from 1 to that count.
   */
  lemma ValidBodyShape(invariants: seq<Expr>, ivc: seq<string>, allIvcs: seq<IvcSet>)
    ensures var body := ValidBody(invariants, ivc, allIvcs);
      && (allIvcs == [] ==>
            && |body| == |invariants| + |ivc|
            && (forall i :: 0 <= i < |invariants| ==> body[i] == "    <Invariant>" + Escape(ExprText(invariants[i])) + "</Invariant>")
            && (forall i :: 0 <= i < |ivc| ==> body[|invariants| + i] == "    <Ivc>" + ivc[i] + "</Ivc>"))
      && (allIvcs != [] ==>
            && body[0] == "    <NumberOfIVCs>" + IntToString(|allIvcs|) + "</NumberOfIVCs>"
            && (forall i :: 0 <= i < |ivc| ==> body[1 + i] == "    <MustElem>" + ivc[i] + "</MustElem>")
            && body[1 + |ivc|..] == IvcSetsLines(allIvcs, 1))
  {
    var body := ValidBody(invariants, ivc, allIvcs);
    if allIvcs == [] {
      var a := Tagged("    <Invariant>", EscapedInvariants(invariants), "</Invariant>");
      var b := Tagged("    <Ivc>", ivc, "</Ivc>");
      assert body == a + b;
      forall i | 0 <= i < |ivc|
        ensures body[|invariants| + i] == "    <Ivc>" + ivc[i] + "</Ivc>"
      {
        assert body[|a| + i] == b[i];
      }
    } else {
      var head := ["    <NumberOfIVCs>" + IntToString(|allIvcs|) + "</NumberOfIVCs>"];
      var must := Tagged("    <MustElem>", ivc, "</MustElem>");
      var sets := IvcSetsLines(allIvcs, 1);
      assert body == head + must + sets;
      forall i | 0 <= i < |ivc|
        ensures body[1 + i] == "    <MustElem>" + ivc[i] + "</MustElem>"
      {
        assert body[1 + i] == must[i];
      }
      assert body[1 + |ivc|..] == sets;
    }
  }

  /** `writeValid(props, …)`: one valid block per property. */
  function ValidListLines(props: seq<string>, source: string, k: int, runtime: string,
                          invariants: seq<Expr>, ivc: seq<string>, allIvcs: seq<IvcSet>): seq<string> {
    if props == [] then []
    else
      ValidListLines(props[..|props| - 1], source, k, runtime, invariants, ivc, allIvcs)
        + ValidLines(props[|props| - 1], source, k, runtime, invariants, ivc, allIvcs)
  }

  lemma {:induction false} ValidListConcat(a: seq<string>, b: seq<string>, source: string, k: int, runtime: string,
                                           invariants: seq<Expr>, ivc: seq<string>, allIvcs: seq<IvcSet>)
    ensures ValidListLines(a + b, source, k, runtime, invariants, ivc, allIvcs)
      == ValidListLines(a, source, k, runtime, invariants, ivc, allIvcs) + ValidListLines(b, source, k, runtime, invariants, ivc, allIvcs)
    decreases |b|
  {
    if b == [] {
      assert a + b == a;
    } else {
      var b' := b[..|b| - 1];
      assert (a + b)[..|a + b| - 1] == a + b';
      ValidListConcat(a, b', source, k, runtime, invariants, ivc, allIvcs);
      AppendAssoc(ValidListLines(a, source, k, runtime, invariants, ivc, allIvcs),
                  ValidListLines(b', source, k, runtime, invariants, ivc, allIvcs),
                  ValidLines(b[|b| - 1], source, k, runtime, invariants, ivc, allIvcs));
    }
  }

  /** The list form writes the block of each property in list order: the `i`-th block is property `i`'s. */
  lemma ValidListInOrder(props: seq<string>, source: string, k: int, runtime: string,
                         invariants: seq<Expr>, ivc: seq<string>, allIvcs: seq<IvcSet>, i: nat)
    requires i < |props|
    ensures ValidListLines(props, source, k, runtime, invariants, ivc, allIvcs)
      == ValidListLines(props[..i], source, k, runtime, invariants, ivc, allIvcs)
        + ValidLines(props[i], source, k, runtime, invariants, ivc, allIvcs)
        + ValidListLines(props[i + 1..], source, k, runtime, invariants, ivc, allIvcs)
  {
    assert props == props[..i + 1] + props[i + 1..];
    ValidListConcat(props[..i + 1], props[i + 1..], source, k, runtime, invariants, ivc, allIvcs);
    assert props[..i + 1][..i] == props[..i];
  }

  /** `writeConflicts`: nothing at all for no conflicts, else a wrapper around one line per conflict. */
  function ConflictLines(conflicts: seq<string>): seq<string> {
    if conflicts == [] then []
    else ["    <Conflicts>"] + Tagged("      <Conflict>", conflicts, "</Conflict>") + ["    </Conflicts>"]
  }

  lemma ConflictLinesShape(conflicts: seq<string>)
    ensures ConflictLines(conflicts) == [] <==> conflicts == []
    ensures conflicts != [] ==> var r := ConflictLines(conflicts);
      |r| == |conflicts| + 2 && r[0] == "    <Conflicts>" && r[|r| - 1] == "    </Conflicts>"
      && forall i :: 0 <= i < |conflicts| ==> r[1 + i] == "      <Conflict>" + conflicts[i] + "</Conflict>"
  {
    if conflicts != [] {
      var r := ConflictLines(conflicts);
      var body := Tagged("      <Conflict>", conflicts, "</Conflict>");
      assert r == ["    <Conflicts>"] + body + ["    </Conflicts>"];
      forall i | 0 <= i < |conflicts|
        ensures r[1 + i] == "      <Conflict>" + conflicts[i] + "</Conflict>"
      {
        assert r[1 + i] == body[i];
      }
    }
  }

  /** `writeInvalid`: the counterexample and its length, then the conflicts. */
  function InvalidLines(types: map<string, string>, prop: string, source: string, cex: Counterexample,
                        conflicts: seq<string>, runtime: string): seq<string> {
    [PropertyOpen(prop), RuntimeLine(runtime), "    <Answer source=\"" + source + "\">falsifiable</Answer>", KLine(cex.length)]
      + CounterexampleLines(types, cex) + ConflictLines(conflicts) + [PropertyClose]
  }

  /** `writeUnknown(prop, …)`: the counterexample and its length only when there is one. */
  function UnknownLines(types: map<string, string>, prop: string, trueFor: int, cex: Option<Counterexample>,
                        runtime: string): seq<string> {
    [PropertyOpen(prop), RuntimeLine(runtime), "    <Answer>unknown</Answer>", "    <TrueFor>" + IntToString(trueFor) + "</TrueFor>"]
      + (match cex case Some(c) => [KLine(c.length)] + CounterexampleLines(types, c) case None => [])
      + [PropertyClose]
  }

  /**
   * An unknown block always states how far the property is true; the `<K>` line and the
   * counterexample follow it only when a counterexample exists, and then they are its own.
   */
  lemma UnknownShape(types: map<string, string>, prop: string, trueFor: int, cex: Option<Counterexample>, runtime: string)
    ensures var r := UnknownLines(types, prop, trueFor, cex, runtime);
      && |r| >= 5 && r[3] == "    <TrueFor>" + IntToString(trueFor) + "</TrueFor>" && r[|r| - 1] == PropertyClose
      && (cex.None? ==> |r| == 5)
      && (cex.Some? ==> r[4] == KLine(cex.value.length) && r[5..|r| - 1] == CounterexampleLines(types, cex.value))
  {
    var r := UnknownLines(types, prop, trueFor, cex, runtime);
    var head := [PropertyOpen(prop), RuntimeLine(runtime), "    <Answer>unknown</Answer>", "    <TrueFor>" + IntToString(trueFor) + "</TrueFor>"];
    if cex.Some? {
      var c := cex.value;
      assert r == head + ([KLine(c.length)] + CounterexampleLines(types, c)) + [PropertyClose];
      assert r[5..|r| - 1] == CounterexampleLines(types, c);
    }
  }

  /** `writeUnknown(props, …)`: one unknown block per property, with its inductive counterexample if any. */
  function UnknownListLines(types: map<string, string>, props: seq<string>, trueFor: int,
                            cexs: map<string, Counterexample>, runtime: string): seq<string> {
    if props == [] then []
    else
      var p := props[|props| - 1];
      UnknownListLines(types, props[..|props| - 1], trueFor, cexs, runtime)
        + UnknownLines(types, p, trueFor, if p in cexs then Some(cexs[p]) else None, runtime)
  }

  /** `writeBaseStep`: a progress element listing every property. */
  function BaseStepLines(props: seq<string>, k: int): seq<string> {
    ["  <Progress source=\"bmc\" trueFor=\"" + IntToString(k) + "\">"]
      + Tagged("    <PropertyProgress name=\"", props, "\"/>") + ["  </Progress>"]
  }

  /** `writeInconsistent`. */
  function InconsistentLines(prop: string, source: string, k: int, runtime: string): seq<string> {
    [PropertyOpen(prop), RuntimeLine(runtime), "    <Answer source=\"" + source + "\">inconsistent</Answer>", KLine(k), PropertyClose]
  }

  const CexOpen := "    <InconsistencyWithCounterexample>"
  const CexClose := "    </InonsistencyCounterexample>"

  /** `writeConsistencyCheckerResults`, for the statuses whose branch completes. */
  function ConsistencyLines(types: map<string, string>, result: ConsistencyResult): seq<string>
    requires result.WithCounterexample? ==> result.cexs != []
  {
    match result
    case Consistent => []
    case UnsatCore(entries) => CoreEntryLines(entries)
    case WithCounterexample(cexs) => CexResultLines(types, cexs[0])
  }

  function CoreEntryLines(entries: seq<string>): seq<string> {
    ["    <Inconsistencies>"] + Tagged("      <Inconsistency>", entries, "</Inconsistency>") + ["    </Inconsistencies>"]
  }

  function CexResultLines(types: map<string, string>, cex: Counterexample): seq<string> {
    [CexOpen] + SignalsLines(types, cex.length, cex.signals) + [CexClose]
  }

  /**
   * A consistent result writes nothing; the counterexample branch closes with a tag that
   * is not the closing tag of the element it headed, so that output is not well-formed XML.
   */
  lemma ConsistencyShape(types: map<string, string>, result: ConsistencyResult)
    requires result.WithCounterexample? ==> result.cexs != []
    ensures result.Consistent? <==> ConsistencyLines(types, result) == []
    ensures result.WithCounterexample? ==> var r := ConsistencyLines(types, result);
      r[0] == CexOpen && r[|r| - 1] == CexClose && CexClose != "    </" + CexOpen[5..]
  {
    var r := ConsistencyLines(types, result);
    if result.WithCounterexample? {
      assert CexClose[10] != ("    </" + CexOpen[5..])[10];
    }
  }

  class XmlWriter {
    /** The declared type of each signal, as printed. */
    const types: map<string, string>
    /** Every line written so far (`out`). */
    var out: seq<string>

    constructor (types: map<string, string>)
      ensures this.types == types && out == []
    {
      this.types := types;
      out := [];
    }

    /** Writes one line per item, in order. */
    method WriteTagged(open: string, items: seq<string>, close: string)
      modifies this
      ensures out == old(out) + Tagged(open, items, close)
    {
      var i := 0;
      while i < |items|
        invariant i <= |items|
        invariant out == old(out) + Tagged(open, items[..i], close)
      {
        TaggedStep(open, items, close, i);
        AppendAssoc(old(out), Tagged(open, items[..i], close), [open + items[i] + close]);
        out := out + [open + items[i] + close];
        i := i + 1;
      }
      assert items[..i] == items;
    }

    /** `writeValid(prop, …)`. */
    method WriteValid(prop: string, source: string, k: int, runtime: string,
                      invariants: seq<Expr>, ivc: seq<string>, allIvcs: seq<IvcSet>)
      modifies this
      ensures out == old(out) + ValidLines(prop, source, k, runtime, invariants, ivc, allIvcs)
    {
      var head := [PropertyOpen(prop), RuntimeLine(runtime), "    <Answer source=\"" + source + "\">valid</Answer>", KLine(k)];
      out := out + head;
      ghost var headed := out;
      if allIvcs == [] {
        WriteTagged("    <Invariant>", EscapedInvariants(invariants), "</Invariant>");
        WriteTagged("    <Ivc>", ivc, "</Ivc>");
        AppendAssoc(headed, Tagged("    <Invariant>", EscapedInvariants(invariants), "</Invariant>"), Tagged("    <Ivc>", ivc, "</Ivc>"));
      } else {
        out := out + ["    <NumberOfIVCs>" + IntToString(|allIvcs|) + "</NumberOfIVCs>"];
        WriteTagged("    <MustElem>", ivc, "</MustElem>");
        WriteIvcSets(allIvcs);
        AppendAssoc(headed, ["    <NumberOfIVCs>" + IntToString(|allIvcs|) + "</NumberOfIVCs>"], Tagged("    <MustElem>", ivc, "</MustElem>"));
        AppendAssoc(headed, ["    <NumberOfIVCs>" + IntToString(|allIvcs|) + "</NumberOfIVCs>"] + Tagged("    <MustElem>", ivc, "</MustElem>"), IvcSetsLines(allIvcs, 1));
      }
      assert out == headed + ValidBody(invariants, ivc, allIvcs);
      out := out + [PropertyClose];
      AppendAssoc(old(out), head, ValidBody(invariants, ivc, allIvcs));
      AppendAssoc(old(out), head + ValidBody(invariants, ivc, allIvcs), [PropertyClose]);
    }

    /** The `allIvcs` loop of `writeValid`, numbering the sets with `count` from 1. */
    method WriteIvcSets(allIvcs: seq<IvcSet>)
      modifies this
      ensures out == old(out) + IvcSetsLines(allIvcs, 1)
    {
      var count := 1;
      var i := 0;
      while i < |allIvcs|
        invariant i <= |allIvcs| && count == i + 1
        invariant out == old(out) + IvcSetsLines(allIvcs[..i], 1)
      {
        IvcSetsStep(allIvcs, 1, i);
        ghost var before := out;
        WriteIvcSet(allIvcs[i], count);
        AppendAssoc(old(out), IvcSetsLines(allIvcs[..i], 1), IvcSetBlock(allIvcs[i], count));
        count := count + 1;
        i := i + 1;
      }
      assert allIvcs[..i] == allIvcs;
    }

    /** One `IvcSet` element. */
    method WriteIvcSet(ivcSet: IvcSet, number: int)
      modifies this
      ensures out == old(out) + IvcSetBlock(ivcSet, number)
    {
      var open := ["    <IvcSet number=\"" + IntToString(number) + "\">"];
      out := out + open;
      WriteTagged("    <Invariant>", ivcSet.invariants, "</Invariant>");
      WriteTagged("    <Ivc>", ivcSet.support, "</Ivc>");
      out := out + ["    </IvcSet>"];
      assert out == old(out) + open + Tagged("    <Invariant>", ivcSet.invariants, "</Invariant>")
        + Tagged("    <Ivc>", ivcSet.support, "</Ivc>") + ["    </IvcSet>"];
      BlockAssoc(old(out), open, Tagged("    <Invariant>", ivcSet.invariants, "</Invariant>"),
                 Tagged("    <Ivc>", ivcSet.support, "</Ivc>"), ["    </IvcSet>"]);
    }

    /** `writeValid(props, …)`. */
    method WriteValidList(props: seq<string>, source: string, k: int, runtime: string,
                          invariants: seq<Expr>, ivc: seq<string>, allIvcs: seq<IvcSet>)
      modifies this
      ensures out == old(out) + ValidListLines(props, source, k, runtime, invariants, ivc, allIvcs)
    {
      var i := 0;
      while i < |props|
        invariant i <= |props|
        invariant out == old(out) + ValidListLines(props[..i], source, k, runtime, invariants, ivc, allIvcs)
      {
        assert props[..i + 1][..i] == props[..i];
        AppendAssoc(old(out), ValidListLines(props[..i], source, k, runtime, invariants, ivc, allIvcs),
                    ValidLines(props[i], source, k, runtime, invariants, ivc, allIvcs));
        WriteValid(props[i], source, k, runtime, invariants, ivc, allIvcs);
        i := i + 1;
      }
      assert props[..i] == props;
    }

    /** `writeSignal(k, signal)`. */
    method WriteSignal(k: nat, s: Signal)
      modifies this
      ensures out == old(out) + SignalLines(types, k, s)
    {
      var open := ["      <Signal name=\"" + s.name + "\" type=\"" + TypeText(types, s.name) + "\">"];
      out := out + open;
      var i := 0;
      while i < k
        invariant i <= k
        invariant out == old(out) + open + ValueLines(s, i)
      {
        if i in s.values && !IsArbitrary(s.values[i]) {
          AppendAssoc(old(out) + open, ValueLines(s, i), [ValueLine(i, s.values[i])]);
          out := out + [ValueLine(i, s.values[i])];
        }
        i := i + 1;
      }
      out := out + ["      </Signal>"];
      AppendAssoc(old(out) + open, ValueLines(s, k), ["      </Signal>"]);
      AppendAssoc(old(out), open, ValueLines(s, k) + ["      </Signal>"]);
      AppendAssoc(old(out), open, ValueLines(s, k));
    }

    /** The loop over the signals of a counterexample. */
    method WriteSignals(k: nat, signals: seq<Signal>)
      modifies this
      ensures out == old(out) + SignalsLines(types, k, signals)
    {
      var i := 0;
      while i < |signals|
        invariant i <= |signals|
        invariant out == old(out) + SignalsLines(types, k, signals[..i])
      {
        SignalsLinesStep(types, k, signals, i);
        AppendAssoc(old(out), SignalsLines(types, k, signals[..i]), SignalLines(types, k, signals[i]));
        WriteSignal(k, signals[i]);
        i := i + 1;
      }
      assert signals[..i] == signals;
    }

    /** `writeCounterexample(cex)`. */
    method WriteCounterexample(cex: Counterexample)
      modifies this
      ensures out == old(out) + CounterexampleLines(types, cex)
    {
      out := out + ["    <Counterexample>"];
      WriteSignals(cex.length, cex.signals);
      out := out + ["    </Counterexample>"];
      AppendAssoc(old(out) + ["    <Counterexample>"], SignalsLines(types, cex.length, cex.signals), ["    </Counterexample>"]);
      AppendAssoc(old(out), ["    <Counterexample>"], SignalsLines(types, cex.length, cex.signals) + ["    </Counterexample>"]);
      AppendAssoc(old(out), ["    <Counterexample>"], SignalsLines(types, cex.length, cex.signals));
    }

    /** `writeConflicts`. */
    method WriteConflicts(conflicts: seq<string>)
      modifies this
      ensures out == old(out) + ConflictLines(conflicts)
    {
      if conflicts == [] {
        assert old(out) + [] == old(out);
        return;
      }
      out := out + ["    <Conflicts>"];
      WriteTagged("      <Conflict>", conflicts, "</Conflict>");
      out := out + ["    </Conflicts>"];
      AppendAssoc(old(out) + ["    <Conflicts>"], Tagged("      <Conflict>", conflicts, "</Conflict>"), ["    </Conflicts>"]);
      AppendAssoc(old(out), ["    <Conflicts>"], Tagged("      <Conflict>", conflicts, "</Conflict>") + ["    </Conflicts>"]);
      AppendAssoc(old(out), ["    <Conflicts>"], Tagged("      <Conflict>", conflicts, "</Conflict>"));
    }

    /** `writeInvalid`. */
    method WriteInvalid(prop: string, source: string, cex: Counterexample, conflicts: seq<string>, runtime: string)
      modifies this
      ensures out == old(out) + InvalidLines(types, prop, source, cex, conflicts, runtime)
    {
      var head := [PropertyOpen(prop), RuntimeLine(runtime), "    <Answer source=\"" + source + "\">falsifiable</Answer>", KLine(cex.length)];
      out := out + head;
      WriteCounterexample(cex);
      WriteConflicts(conflicts);
      out := out + [PropertyClose];
      BlockAssoc(old(out), head, CounterexampleLines(types, cex), ConflictLines(conflicts), [PropertyClose]);
    }

    /** `writeUnknown(prop, …)`. */
    method WriteUnknown(prop: string, trueFor: int, cex: Option<Counterexample>, runtime: string)
      modifies this
      ensures out == old(out) + UnknownLines(types, prop, trueFor, cex, runtime)
    {
      var head := [PropertyOpen(prop), RuntimeLine(runtime), "    <Answer>unknown</Answer>", "    <TrueFor>" + IntToString(trueFor) + "</TrueFor>"];
      out := out + head;
      if cex.Some? {
        out := out + [KLine(cex.value.length)];
        WriteCounterexample(cex.value);
        AppendAssoc(old(out) + head, [KLine(cex.value.length)], CounterexampleLines(types, cex.value));
      } else {
        assert out == old(out) + head + [];
      }
      out := out + [PropertyClose];
      ghost var middle := match cex case Some(c) => [KLine(c.length)] + CounterexampleLines(types, c) case None => [];
      AppendAssoc(old(out) + head, middle, [PropertyClose]);
      AppendAssoc(old(out), head, middle + [PropertyClose]);
      AppendAssoc(old(out), head, middle);
    }

    /** `writeUnknown(props, …)`: looks up each property's inductive counterexample. */
    method WriteUnknownList(props: seq<string>, trueFor: int, cexs: map<string, Counterexample>, runtime: string)
      modifies this
      ensures out == old(out) + UnknownListLines(types, props, trueFor, cexs, runtime)
    {
      var i := 0;
      while i < |props|
        invariant i <= |props|
        invariant out == old(out) + UnknownListLines(types, props[..i], trueFor, cexs, runtime)
      {
        var p := props[i];
        assert props[..i + 1][..i] == props[..i];
        var cex := if p in cexs then Some(cexs[p]) else None;
        AppendAssoc(old(out), UnknownListLines(types, props[..i], trueFor, cexs, runtime), UnknownLines(types, p, trueFor, cex, runtime));
        WriteUnknown(p, trueFor, cex, runtime);
        i := i + 1;
      }
      assert props[..i] == props;
    }

    /** `writeBaseStep`. */
    method WriteBaseStep(props: seq<string>, k: int)
      modifies this
      ensures out == old(out) + BaseStepLines(props, k)
    {
      var open := ["  <Progress source=\"bmc\" trueFor=\"" + IntToString(k) + "\">"];
      out := out + open;
      WriteTagged("    <PropertyProgress name=\"", props, "\"/>");
      out := out + ["  </Progress>"];
      AppendAssoc(old(out) + open, Tagged("    <PropertyProgress name=\"", props, "\"/>"), ["  </Progress>"]);
      AppendAssoc(old(out), open, Tagged("    <PropertyProgress name=\"", props, "\"/>") + ["  </Progress>"]);
      AppendAssoc(old(out), open, Tagged("    <PropertyProgress name=\"", props, "\"/>"));
    }

    /** `writeInconsistent`. */
    method WriteInconsistent(prop: string, source: string, k: int, runtime: string)
      modifies this
      ensures out == old(out) + InconsistentLines(prop, source, k, runtime)
    {
      out := out + [PropertyOpen(prop)];
      out := out + [RuntimeLine(runtime)];
      out := out + ["    <Answer source=\"" + source + "\">inconsistent</Answer>"];
      out := out + [KLine(k)];
      out := out + [PropertyClose];
    }

    /**
     * `writeConsistencyCheckerResults`. A counterexample status without any counterexample
     * fails after the opening line, where the source's `get(0)` throws.
     */
    method WriteConsistencyCheckerResults(result: ConsistencyResult) returns (failed: bool)
      modifies this
      ensures failed <==> result.WithCounterexample? && result.cexs == []
      ensures failed ==> out == old(out) + [CexOpen]
      ensures !failed ==> out == old(out) + ConsistencyLines(types, result)
    {
      match result
      case Consistent =>
        assert old(out) + [] == old(out);
        return false;
      case UnsatCore(entries) =>
        WriteInconsistencies(entries);
        return false;
      case WithCounterexample(cexs) =>
        if cexs == [] {
          out := out + [CexOpen];
          return true;
        }
        WriteInconsistencyCounterexample(cexs[0]);
        return false;
    }

    /** The unsat-core branch of `writeConsistencyCheckerResults`. */
    method WriteInconsistencies(entries: seq<string>)
      modifies this
      ensures out == old(out) + CoreEntryLines(entries)
    {
      out := out + ["    <Inconsistencies>"];
      WriteTagged("      <Inconsistency>", entries, "</Inconsistency>");
      out := out + ["    </Inconsistencies>"];
      BlockAssoc(old(out), ["    <Inconsistencies>"], Tagged("      <Inconsistency>", entries, "</Inconsistency>"), [], ["    </Inconsistencies>"]);
    }

    /** The counterexample branch of `writeConsistencyCheckerResults`, for its first counterexample. */
    method WriteInconsistencyCounterexample(cex: Counterexample)
      modifies this
      ensures out == old(out) + CexResultLines(types, cex)
    {
      out := out + [CexOpen];
      WriteSignals(cex.length, cex.signals);
      out := out + [CexClose];
      BlockAssoc(old(out), [CexOpen], SignalsLines(types, cex.length, cex.signals), [], [CexClose]);
    }
  }

  /** Regrouping lines written one group at a time. */
  lemma BlockAssoc(out: seq<string>, a: seq<string>, b: seq<string>, c: seq<string>, d: seq<string>)
    ensures out + a + b + c + d == out + (a + b + c + d)
  {
    var x := a + b + c + d;
    assert (out + x)[..|out|] == out;
  }
}
