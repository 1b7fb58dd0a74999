/** The escrow path as one system: both databases, every saga call in progress, its HTTP request, the publishers of the
    payments outbox and the event stream between the services.

    A step is one committed local transaction, one HTTP execution, one thing a caller notices, one publisher action or
    one message action.  A caller may see an error at any time, whatever became of its request; a request may execute
    late, after its caller gave up, or never; a caller may stop between any two steps.  Each HTTP request is executed
    at most once: every call sends exactly one. */
module Escrow {
  import opened Wrappers
  import opened ContractsDb
  import P = PaymentsDb
  import R = OutboxRelay
  import Consumer

  datatype Http = Unsent | InFlight | Answered(reply: P.Reply) | Lost

  // CreateContract, from the commit of its first transaction on.
  datatype CreatePc = AwaitHold | GotHold(hold: nat) | GotError | CreateEnded

  datatype Create = Create(pc: CreatePc, http: Http)

  // CompleteContract or CancelContract, from its read of the contract on.
  datatype CallPc = ToClaim | ToSend | AwaitReply | ToFinish | CallEnded

  datatype Call = Call(op: Settlement, contract: nat, hold: Option<nat>, payee: nat, pc: CallPc, http: Http)

  // `creates` runs parallel to the contracts table.  `stream` holds the messages not yet acknowledged, `handled` the
  // successfully handled ones whose acknowledgement is still to reach the broker.  `seeds` records first balances.
  datatype System = System(
    pay: P.Ledger,
    con: Contracts,
    creates: seq<Create>,
    calls: seq<Call>,
    batches: map<nat, R.Batch>,
    stored: multiset<nat>,
    repeats: multiset<nat>,
    stream: multiset<P.PaymentEvent>,
    handled: multiset<P.PaymentEvent>,
    seeds: seq<int>)

  datatype Step =
    | SeedWallet(user: nat, balance: int)
    | StartCreate(client: nat, freelancer: nat, amount: int)
    | HoldArrives(c: nat, heldSeen: int, now: nat)
    | HoldLost(c: nat)
    | HoldAnswered(c: nat)
    | HoldFails(c: nat)
    | RecordHold(c: nat)
    | Compensate(c: nat)
    | StopCreate(c: nat)
    | Accept(c: nat)
    | StartSettle(op: Settlement, c: nat)
    | Claim(i: nat)
    | Send(i: nat)
    | SettleArrives(i: nat, now: nat)
    | SettleLost(i: nat)
    | SettleAnswered(i: nat)
    | SettleFails(i: nat)
    | Finish(i: nat)
    | StopCall(i: nat)
    | Publish(action: R.Step<P.PaymentEvent>)
    | Deliver(m: P.PaymentEvent)
    | AckArrives(m: P.PaymentEvent)
    | AckDropped(m: P.PaymentEvent)

  const START := System(P.Ledger([], [], [], []), NO_CONTRACTS, [], [], map[], multiset{}, multiset{}, multiset{}, multiset{}, [])

  function Relay(s: System): R.Relay<P.PaymentEvent> {
    R.Relay(s.pay.outbox, s.batches, s.stored, s.repeats)
  }

  function HoldOp(s: System, c: nat, heldSeen: int, now: nat): P.Op
    requires c < |s.con.rows|
  {
    P.OpHold(Some(s.con.rows[c].client), s.con.rows[c].amount, Some(c), heldSeen, now)
  }

  function SettleOp(call: Call, now: nat): P.Op {
    if call.op.Complete? then P.OpTransfer(call.hold, Some(call.payee), now) else P.OpRelease(call.hold, now)
  }

  function MessageOf(m: P.PaymentEvent): Consumer.Message {
    Consumer.Message(
      if m.PaymentHeld? then Consumer.HeldSubject else if m.PaymentFailed? then Consumer.FailedSubject else Consumer.OtherSubject,
      Consumer.About(m.contract))
  }

  ghost predicate Enabled(s: System, step: Step) {
    match step
    case SeedWallet(_, _) => true
    case StartCreate(_, _, amount) => 0 < amount
    case HoldArrives(c, heldSeen, now) =>
      c < |s.creates| && c < |s.con.rows| && s.creates[c].http.InFlight? && P.Admissible(s.pay, HoldOp(s, c, heldSeen, now))
    case HoldLost(c) => c < |s.creates| && s.creates[c].http.InFlight?
    case HoldAnswered(c) => c < |s.creates| && s.creates[c].pc.AwaitHold? && s.creates[c].http.Answered? && s.creates[c].http.reply.Created?
    case HoldFails(c) => c < |s.creates| && s.creates[c].pc.AwaitHold?
    case RecordHold(c) => c < |s.creates| && s.creates[c].pc.GotHold?
    case Compensate(c) => c < |s.creates| && s.creates[c].pc.GotError?
    case StopCreate(c) => c < |s.creates|
    case Accept(_) => true
    case StartSettle(_, _) => true
    case Claim(i) => i < |s.calls| && s.calls[i].pc.ToClaim?
    case Send(i) => i < |s.calls| && s.calls[i].pc.ToSend?
    case SettleArrives(i, _) => i < |s.calls| && s.calls[i].http.InFlight?
    case SettleLost(i) => i < |s.calls| && s.calls[i].http.InFlight?
    case SettleAnswered(i) => i < |s.calls| && s.calls[i].pc.AwaitReply? && s.calls[i].http == Answered(P.Done)
    case SettleFails(i) => i < |s.calls| && s.calls[i].pc.AwaitReply?
    case Finish(i) => i < |s.calls| && s.calls[i].pc.ToFinish?
    case StopCall(i) => i < |s.calls|
    case Publish(action) => !action.Insert? && R.Enabled(Relay(s), action)
    case Deliver(m) => m in s.stream
    case AckArrives(m) => m in s.handled
    case AckDropped(m) => m in s.handled
  }

  function SetCreate(s: System, c: nat, create: Create): System
    requires c < |s.creates|
  {
    s.(creates := s.creates[c := create])
  }

  function SetCall(s: System, i: nat, call: Call): System
    requires i < |s.calls|
  {
    s.(calls := s.calls[i := call])
  }

  // The contracts database after a local transaction that may have been rolled back.
  function Commit(s: System, tx: Option<Contracts>): System {
    if tx.Some? then s.(con := tx.value) else s
  }

  // GetByID, and the status test of a settling call.
  function Started(s: System, op: Settlement, c: nat): System {
    if |s.con.rows| <= c then s
    else
      var row := s.con.rows[c];
      if row.status == Open(op) then s.(calls := s.calls + [Call(op, c, row.hold, row.freelancer, ToClaim, Unsent)])
      else if row.status == Claimed(op) then s.(calls := s.calls + [Call(op, c, row.hold, row.freelancer, ToSend, Unsent)])
      else s
  }

  // The event an Offer hands to the broker, as a message.
  ghost function Offered(s: System, action: R.Step<P.PaymentEvent>): multiset<P.PaymentEvent>
    requires action.Offer? && R.Enabled(Relay(s), action)
  {
    var b := s.batches[action.pid];
    var e := b.ids[b.next];
    if e < |s.pay.outbox| then multiset{s.pay.outbox[e].event} else multiset{}
  }

  ghost function Published(s: System, action: R.Step<P.PaymentEvent>): System
    requires !action.Insert? && R.Enabled(Relay(s), action)
  {
    var r := R.Apply(Relay(s), action);
    var sent := if action.Offer? && !action.answer.Refused? then Offered(s, action) else multiset{};
    s.(pay := s.pay.(outbox := r.rows), batches := r.batches, stored := r.stored, repeats := r.repeats, stream := s.stream + sent)
  }

  ghost function Apply(s: System, step: Step): System
    requires Enabled(s, step)
  {
    match step
    case SeedWallet(user, balance) =>
      s.(pay := P.Seed(s.pay, user, balance).0,
         seeds := if |P.Seed(s.pay, user, balance).0.wallets| > |s.pay.wallets| then s.seeds + [balance] else s.seeds)
    case StartCreate(client, freelancer, amount) =>
      s.(con := InsertTx(s.con, client, freelancer, amount), creates := s.creates + [Create(AwaitHold, InFlight)])
    case HoldArrives(c, heldSeen, now) =>
      var (pay, reply) := P.Execute(s.pay, HoldOp(s, c, heldSeen, now));
      SetCreate(s, c, s.creates[c].(http := Answered(reply))).(pay := pay)
    case HoldLost(c) => SetCreate(s, c, s.creates[c].(http := Lost))
    case HoldAnswered(c) => SetCreate(s, c, s.creates[c].(pc := GotHold(s.creates[c].http.reply.id)))
    case HoldFails(c) => SetCreate(s, c, s.creates[c].(pc := GotError))
    case RecordHold(c) =>
      SetCreate(Commit(s, RecordHoldTx(s.con, c, s.creates[c].pc.hold)), c, s.creates[c].(pc := CreateEnded))
    case Compensate(c) => SetCreate(s, c, s.creates[c].(pc := CreateEnded)).(con := CompensateTx(s.con, c))
    case StopCreate(c) => SetCreate(s, c, s.creates[c].(pc := CreateEnded))
    case Accept(c) => Commit(s, AcceptTx(s.con, c))
    case StartSettle(op, c) => Started(s, op, c)
    case Claim(i) =>
      var call := s.calls[i];
      var tx := ClaimTx(s.con, call.op, call.contract);
      SetCall(Commit(s, tx), i, call.(pc := if tx.Some? then ToSend else CallEnded))
    case Send(i) =>
      SetCall(s, i, if s.calls[i].hold.None? then s.calls[i].(pc := CallEnded) else s.calls[i].(pc := AwaitReply, http := InFlight))
    case SettleArrives(i, now) =>
      var (pay, reply) := P.Execute(s.pay, SettleOp(s.calls[i], now));
      SetCall(s, i, s.calls[i].(http := Answered(reply))).(pay := pay)
    case SettleLost(i) => SetCall(s, i, s.calls[i].(http := Lost))
    case SettleAnswered(i) => SetCall(s, i, s.calls[i].(pc := ToFinish))
    case SettleFails(i) => SetCall(s, i, s.calls[i].(pc := CallEnded))
    case Finish(i) =>
      SetCall(Commit(s, FinishTx(s.con, s.calls[i].op, s.calls[i].contract)), i, s.calls[i].(pc := CallEnded))
    case StopCall(i) => SetCall(s, i, s.calls[i].(pc := CallEnded))
    case Publish(action) => Published(s, action)
    case Deliver(m) =>
      var (con, verdict) := Consumer.Dispatch(s.con, MessageOf(m));
      s.(con := con, handled := if verdict.Ack? then s.handled + multiset{m} else s.handled)
    case AckArrives(m) => s.(stream := s.stream - multiset{m}, handled := s.handled - multiset{m})
    case AckDropped(m) => s.(handled := s.handled - multiset{m})
  }

  ghost predicate CanRun(s: System, steps: seq<Step>)
    decreases |steps|
  {
    steps != [] ==> Enabled(s, steps[0]) && CanRun(Apply(s, steps[0]), steps[1..])
  }

  ghost function Run(s: System, steps: seq<Step>): System
    requires CanRun(s, steps)
    decreases |steps|
  {
    if steps == [] then s else Run(Apply(s, steps[0]), steps[1..])
  }

  // The states a run from the empty system can end in.
  ghost predicate Reachable(s: System) {
    exists steps :: CanRun(START, steps) && s == Run(START, steps)
  }
}
