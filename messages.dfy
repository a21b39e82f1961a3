/** The messages engines exchange, their routing itineraries, and the director's outgoing log. */
module Messages {
  import opened Collections
  import opened Lustre
  import opened Solvers

  datatype EngineType =
    | BmcEngineType
    | KInductionEngineType
    | InvariantGenerationEngineType
    | PdrEngineType
    | IvcReductionEngineType
    | IvcReductionAllEngineType
    | ConsistencyCheckerEngineType

  /** The destinations a Valid or Invalid message must still visit, first one next. */
  type Itinerary = seq<EngineType>

  /** `Itinerary.getNextDestination()`: none once the itinerary is used up. */
  function NextDestination(it: Itinerary): (d: Option<EngineType>)
    ensures d.Some? <==> it != []
    ensures d.Some? ==> d.value == it[0]
  {
    if it == [] then None else Some(it[0])
  }

  /** The itinerary after one hop. */
  function NextItinerary(it: Itinerary): (r: Itinerary)
    ensures it != [] ==> [it[0]] + r == it
    ensures it == [] ==> r == []
  {
    if it == [] then [] else it[1..]
  }

  datatype Message =
    | ValidMessage(source: string, valid: seq<Id>, k: int, invariants: seq<Expr>, ivc: seq<Id>, itinerary: Itinerary)
    | InvalidMessage(source: string, invalid: seq<Id>, length: int, model: Model, itinerary: Itinerary)
    | UnknownMessage(source: string, unknown: seq<Id>)
    | BaseStepMessage(step: int, properties: seq<Id>)
    | InductiveCounterexampleMessage(counterexampleFor: seq<Id>, cexLength: int, cexModel: Model)
    | InvariantMessage(invariants: seq<Expr>)

  /** How a message left an engine: `director.broadcast` or `director.receiveMessage`. */
  datatype Delivery = ToAll(msg: Message) | ToDirector(msg: Message)

  /** The properties that the Invalid and Unknown messages among `ds` settle, in order. */
  function Settled(ds: seq<Delivery>): seq<Id> {
    if ds == [] then []
    else
      var here :=
        match ds[0].msg
        case InvalidMessage(_, ids, _, _, _) => ids
        case UnknownMessage(_, ids) => ids
        case _ => [];
      here + Settled(ds[1..])
  }

  lemma {:induction false} SettledAppend(a: seq<Delivery>, b: seq<Delivery>)
    ensures Settled(a + b) == Settled(a) + Settled(b)
  {
    if a == [] {
      assert a + b == b;
    } else {
      assert (a + b)[0] == a[0] && (a + b)[1..] == a[1..] + b;
      SettledAppend(a[1..], b);
    }
  }

  /** The message bus, reduced to the append-only record of what engines send. */
  class Director {
    const validItinerary: Itinerary
    const invalidItinerary: Itinerary
    var sent: seq<Delivery>

    constructor (validItinerary: Itinerary, invalidItinerary: Itinerary)
      ensures this.validItinerary == validItinerary && this.invalidItinerary == invalidItinerary
      ensures sent == []
    {
      this.validItinerary := validItinerary;
      this.invalidItinerary := invalidItinerary;
      sent := [];
    }

    method Broadcast(m: Message)
      modifies this
      ensures sent == old(sent) + [ToAll(m)]
    {
      sent := sent + [ToAll(m)];
    }

    method ReceiveMessage(m: Message)
      modifies this
      ensures sent == old(sent) + [ToDirector(m)]
    {
      sent := sent + [ToDirector(m)];
    }
  }
}
