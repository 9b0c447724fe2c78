/** Sending orders: what the order manager keeps in memory, what its journal has on disk, and what the broker
    has accepted, one step at a time. A step is what happens between two awaits or two journal writes, so
    the process may crash between any two steps. */
module Orders {
  import opened Types

  const PREFIX: string := "at"

  /** Derived from the intent, so that one intent has one order id. */
  function ClientOrderId(intentHex: string): string
    requires |intentHex| >= 29
  {
    PREFIX + intentHex[..29]
  }

  datatype Kind = AtMarket | Resting

  datatype Status = Sending | Pending | Open | Closed | Cancelled | Expired | Rejected | Failed

  /** A decision of the risk gate; `signed` says that its signature verifies. */
  datatype Decision = Decision(signed: bool, intentHex: string, expiresAt: int, sequence: int, approves: bool)

  function Verified(d: Decision, intentHex: string, now: int, lastSequence: int): bool {
    d.signed && d.intentHex == intentHex && now <= d.expiresAt && d.sequence > lastSequence && d.approves
  }

  /** The next broker call of a send. Looking for an order takes two calls. */
  datatype Stage = ReadPositions | ReadOrders | Placing

  datatype Send = Send(kind: Kind, sequence: int, attempt: nat, stage: Stage)

  /** An entry on its way to the broker, before its order is journaled. */
  datatype Entry = Entry(id: string, kind: Kind, sequence: int, progress: Progress)

  datatype Progress = SequenceInMemory | SequenceOnDisk | Registered

  datatype Memory = Memory(
    orders: map<string, Status>, lastSequence: int, entry: Option<Entry>, sends: map<string, Send>)

  datatype Disk = Disk(orders: map<string, Status>, lastSequence: int)

  datatype Request = Request(id: string, sequence: int)

  /** `placed` is the history of all requests the broker has accepted. */
  datatype Broker = Broker(positions: multiset<string>, resting: multiset<string>, placed: seq<Request>)

  /** `written` is the history of entries whose order was journaled; `confirmed` the ids for which a send
      reported that its order is at the broker. */
  datatype System = System(
    mem: Option<Memory>, disk: Disk, broker: Broker, written: seq<Request>, confirmed: set<string>)

  /** The request is lost, or the broker acts on it and the answer arrives or not. */
  datatype Outcome = LostBefore | Accepted(answered: bool) | Refused(answered: bool)

  datatype Step =
    | Crash
    | Restart
      // an entry, up to its write-ahead record
    | Verify(d: Decision, intentHex: string, kind: Kind, now: int)
    | SaveSequence
    | Drop
    | Register
    | SaveOrder
      // the calls of one send
    | LookForPosition(id: string, lost: bool)
    | LookForOrder(id: string, lost: bool)
    | Place(id: string, outcome: Outcome)
      // the other jobs of the process: deals, expiry, halts, reconciliation
    | Note(id: string, status: Status)
    | AdoptUnknown(id: string, status: Status)
    | Save
      // the market and the account
    | Fill(id: string)
    | CloseOut(id: string)
    | Withdraw(id: string)

  function Init(): System {
    System(None, Disk(map[], -1), Broker(multiset{}, multiset{}, []), [], {})
  }

  /** Write the whole journal. */
  function Saved(s: System, m: Memory): System { s.(mem := Some(m), disk := Disk(m.orders, m.lastSequence)) }

  // ---------------------------------------------------------------- entries

  function VerifyStep(s: System, m: Memory, d: Decision, intentHex: string, kind: Kind, now: int): System {
    if |intentHex| < 29 || m.entry.Some? || ClientOrderId(intentHex) in m.orders then s
    else if !Verified(d, intentHex, now, m.lastSequence) then s
    else
      s.(mem := Some(m.(
        lastSequence := d.sequence,
        entry := Some(Entry(ClientOrderId(intentHex), kind, d.sequence, SequenceInMemory)))))
  }

  function EntryStep(s: System, m: Memory, e: Entry, step: Step): System {
    if step.SaveSequence? && e.progress == SequenceInMemory then
      Saved(s, m.(entry := Some(e.(progress := SequenceOnDisk))))
    else if step.Drop? && e.progress == SequenceOnDisk then s.(mem := Some(m.(entry := None)))
    else if step.Register? && e.progress == SequenceOnDisk then
      s.(mem := Some(m.(orders := m.orders[e.id := Sending], entry := Some(e.(progress := Registered)))))
    else if step.SaveOrder? && e.progress == Registered then
      Saved(s.(written := s.written + [Request(e.id, e.sequence)]),
            m.(entry := None, sends := m.sends[e.id := Send(e.kind, e.sequence, 0, ReadPositions)]))
    else s
  }

  // ---------------------------------------------------------------- one send: at most two attempts

  /** The call failed: try once more, or give up and leave the order to reconciliation. */
  function Retry(m: Memory, id: string, send: Send): Memory {
    if send.attempt == 0 then m.(sends := m.sends[id := send.(attempt := 1, stage := ReadPositions)])
    else m.(sends := m.sends - {id})
  }

  function Finished(m: Memory, id: string, status: Status): Memory {
    m.(orders := m.orders[id := status], sends := m.sends - {id})
  }

  function Confirmed(s: System, m: Memory, id: string, status: Status): System {
    Saved(s.(confirmed := s.confirmed + {id}), Finished(m, id, status))
  }

  function PositionStep(s: System, m: Memory, id: string, send: Send, lost: bool): System {
    if lost then s.(mem := Some(Retry(m, id, send)))
    else if id in s.broker.positions then Confirmed(s, m, id, Open)
    else s.(mem := Some(m.(sends := m.sends[id := send.(stage := ReadOrders)])))
  }

  function OrderStep(s: System, m: Memory, id: string, send: Send, lost: bool): System {
    if lost then s.(mem := Some(Retry(m, id, send)))
    else if id in s.broker.resting then Confirmed(s, m, id, Pending)
    else s.(mem := Some(m.(sends := m.sends[id := send.(stage := Placing)])))
  }

  function Accept(b: Broker, id: string, send: Send): Broker {
    var placed := b.placed + [Request(id, send.sequence)];
    if send.kind == AtMarket then b.(positions := b.positions + multiset{id}, placed := placed)
    else b.(resting := b.resting + multiset{id}, placed := placed)
  }

  function PlaceStep(s: System, m: Memory, id: string, send: Send, outcome: Outcome): System {
    match outcome
    case LostBefore => s.(mem := Some(Retry(m, id, send)))
    case Refused(answered) =>
      if answered then Saved(s, Finished(m, id, Rejected)) else s.(mem := Some(Retry(m, id, send)))
    case Accepted(answered) =>
      var s' := s.(broker := Accept(s.broker, id, send));
      if answered then Confirmed(s', m, id, if send.kind == AtMarket then Open else Pending)
      else s'.(mem := Some(Retry(m, id, send)))
  }

  function SendStep(s: System, m: Memory, step: Step): System {
    match step
    case LookForPosition(id, lost) =>
      if id in m.sends && m.sends[id].stage == ReadPositions then PositionStep(s, m, id, m.sends[id], lost) else s
    case LookForOrder(id, lost) =>
      if id in m.sends && m.sends[id].stage == ReadOrders then OrderStep(s, m, id, m.sends[id], lost) else s
    case Place(id, outcome) =>
      if id in m.sends && m.sends[id].stage == Placing then PlaceStep(s, m, id, m.sends[id], outcome) else s
    case _ => s
  }

  // ---------------------------------------------------------------- everything else

  function JobStep(s: System, m: Memory, step: Step): System {
    match step
    case Note(id, status) =>
      if id in m.orders && status != Rejected && status != Sending then
        s.(mem := Some(m.(orders := m.orders[id := status])))
      else s
    case AdoptUnknown(id, status) =>
      if id !in m.orders && (id in s.broker.positions || id in s.broker.resting)
        && (status == Open || status == Pending) then
        s.(mem := Some(m.(orders := m.orders[id := status])))
      else s
    case Save => Saved(s, m)
    case _ => s
  }

  function BrokerStep(b: Broker, step: Step): Broker {
    match step
    case Fill(id) =>
      if id in b.resting then b.(resting := b.resting - multiset{id}, positions := b.positions + multiset{id}) else b
    case CloseOut(id) => b.(positions := b.positions - multiset{id})
    case Withdraw(id) => b.(resting := b.resting - multiset{id})
    case _ => b
  }

  predicate OfBroker(step: Step) { step.Fill? || step.CloseOut? || step.Withdraw? }

  /** What a running process does. While an entry is between its two journal writes nothing else runs. */
  function ProcessStep(s: System, m: Memory, step: Step): System {
    if m.entry.Some? then EntryStep(s, m, m.entry.value, step)
    else
      match step
      case Verify(d, intentHex, kind, now) => VerifyStep(s, m, d, intentHex, kind, now)
      case Note(_, _) => JobStep(s, m, step)
      case AdoptUnknown(_, _) => JobStep(s, m, step)
      case Save => JobStep(s, m, step)
      case _ => SendStep(s, m, step)
  }

  /** A step that is not possible changes nothing. */
  function Next(s: System, step: Step): System {
    if OfBroker(step) then s.(broker := BrokerStep(s.broker, step))
    else if step.Crash? then s.(mem := None)
    else if s.mem.Some? then ProcessStep(s, s.mem.value, step)
    else if step.Restart? then s.(mem := Some(Memory(s.disk.orders, s.disk.lastSequence, None, map[])))
    else s
  }

  function Run(steps: seq<Step>): System {
    if steps == [] then Init() else Next(Run(steps[..|steps| - 1]), steps[|steps| - 1])
  }

  function Count(rs: seq<Request>, id: string): nat {
    if rs == [] then 0 else Count(rs[..|rs| - 1], id) + if rs[|rs| - 1].id == id then 1 else 0
  }
}
