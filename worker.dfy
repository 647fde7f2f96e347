/** The brokerage worker's state machine, as values: the shared fields the suite
    keeps (session, connected flag, last error, last order id, the order and
    position tables), one transition per command handler, and a run over a FIFO
    sequence of commands.

    The brokerage library is not modelled; everything it would answer during one
    command (is the old session live, did a call raise, which contract matched,
    which order id was assigned) is an `Answers` input. Every disconnect, connect,
    qualify, place and cancel call the worker makes is appended to `calls`, so the
    order of those calls is visible. */
module Worker {
  import opened Base

  /** One brokerage session object; each connect attempt creates a fresh one. */
  datatype Session = Session(id: nat)

  /** A contract the brokerage qualified. */
  datatype Contract = Contract(conId: int)

  /** The fields of a trade request as the worker reads them. The decimal fields
      are carried as the text they print as, which is all the worker does with
      them; `right` and `qty` are absent when the request omitted them. */
  datatype TradeParams = TradeParams(
    strike: string,
    expiry: string,
    right: Option<string>,
    price: string,
    qty: Option<int>)

  /** The option right, "C" when the request gave none. */
  function RightOf(p: TradeParams): string {
    match p.right
    case Some(r) => r
    case None => "C"
  }

  /** The quantity, 1 when the request gave none. */
  function QtyOf(p: TradeParams): int {
    match p.qty
    case Some(q) => q
    case None => 1
  }

  /** A limit order the worker placed (kept in `orders` under its broker id). */
  datatype Order = Order(contract: Contract, action: string, quantity: int, limitPrice: string)

  /** An entry of the position table; no command ever creates one. */
  datatype Position = Position(orderId: int)

  datatype Command =
    | ConnectCmd(host: string, port: int, clientId: int)
    | DisconnectCmd
    | TradeCmd(params: TradeParams)
    | CancelCmd(orderId: int)
    | CloseCmd(tradeId: int)
    | OtherCmd(kind: string)

  /** A call made into the brokerage library that the model logs: by the worker,
      or (the last two, for the option-chain endpoint) by a request handler on its
      own thread. Creating a session object and asking whether it is connected are
      not logged; `Answers` stands in for their results. */
  datatype BrokerCall =
    | CallDisconnect(session: Session)
    | CallConnect(session: Session, host: string, port: int, clientId: int)
    | CallQualify(session: Session, params: TradeParams)
    | CallPlace(session: Session, contract: Contract, order: Order)
    | CallCancel(session: Session, orderId: int)
    | CallQualifyStock(session: Session)
    | CallOptionParams(session: Session)

  datatype ConnectAnswer = Opened | NotOpened | ConnectRaised(message: string)

  datatype QualifyAnswer = Qualified(contract: Contract) | NoMatch | QualifyRaised(message: string)

  datatype PlaceAnswer = Placed(orderId: int) | PlaceRaised(message: string)

  /** What the brokerage answers while one command is handled; each handler
      reads only the fields it needs. */
  datatype Answers = Answers(
    oldSessionLive: bool,
    disconnectRaised: Option<string>,
    connect: ConnectAnswer,
    qualify: QualifyAnswer,
    place: PlaceAnswer,
    cancelRaised: bool)

  datatype State = State(
    ib: Option<Session>,
    connected: bool,
    lastError: Option<string>,
    lastOrderId: Option<int>,
    orders: map<int, Order>,
    trades: map<int, Position>,
    nextSession: nat,
    calls: seq<BrokerCall>)

  const NotConnectedMessage: string := "IBKR not connected"
  const ConnectionFailedMessage: string := "Connection failed"

  function ContractNotFoundMessage(p: TradeParams): string {
    "Contract not found: SPY " + p.expiry + " $" + p.strike + " " + RightOf(p)
      + ". Check if this strike/date exists in IBKR."
  }

  /** The state the suite starts in. */
  function Initial(): State {
    State(None, false, None, None, map[], map[], 0, [])
  }

  function SessionOf(c: BrokerCall): Session {
    c.session
  }

  /** The worker's invariant: a connected worker holds a session, and every
      session it ever created has an id below `nextSession`. */
  ghost predicate Inv(s: State) {
    && (s.connected ==> s.ib.Some?)
    && (s.ib.Some? ==> s.ib.value.id < s.nextSession)
    && (forall i :: 0 <= i < |s.calls| ==> SessionOf(s.calls[i]).id < s.nextSession)
  }

  // ---------------------------------------------------------------------------
  // Handlers

  /** Connect: tear down a live session first, then open a fresh one. Success
      sets the connected flag and clears the error; any failure clears the flag
      and records the message. */
  function Connect(s: State, host: string, port: int, clientId: int, a: Answers): (r: State)
    ensures r.orders == s.orders && r.trades == s.trades && r.lastOrderId == s.lastOrderId
    ensures r.connected <==>
              a.connect == Opened && !(s.ib.Some? && a.oldSessionLive && a.disconnectRaised.Some?)
    ensures r.connected ==> r.lastError == None && r.ib == Some(Session(s.nextSession))
    ensures !r.connected ==> r.lastError.Some?
    ensures s.ib.Some? && a.oldSessionLive && a.disconnectRaised.Some? ==>
              r.ib == s.ib && r.lastError == a.disconnectRaised && r.nextSession == s.nextSession
    ensures !(s.ib.Some? && a.oldSessionLive && a.disconnectRaised.Some?) ==>
              && r.ib == Some(Session(s.nextSession)) && r.nextSession == s.nextSession + 1
              && (a.connect == NotOpened ==> r.lastError == Some(ConnectionFailedMessage))
              && (a.connect.ConnectRaised? ==> r.lastError == Some(a.connect.message))
    ensures Inv(s) ==> Inv(r)
  {
    var live := s.ib.Some? && a.oldSessionLive;
    var teardown := if live then [CallDisconnect(s.ib.value)] else [];
    if live && a.disconnectRaised.Some? then
      s.(connected := false, lastError := Some(a.disconnectRaised.value), calls := s.calls + teardown)
    else
      var session := Session(s.nextSession);
      var started := s.(ib := Some(session), nextSession := s.nextSession + 1,
                       calls := s.calls + teardown + [CallConnect(session, host, port, clientId)]);
      match a.connect
      case Opened => started.(connected := true, lastError := None)
      case NotOpened => started.(connected := false, lastError := Some(ConnectionFailedMessage))
      case ConnectRaised(m) => started.(connected := false, lastError := Some(m))
  }

  /** Disconnect: drop the session unless closing it raised; nothing to do
      without one. */
  function Disconnect(s: State, a: Answers): (r: State)
    ensures s.ib.None? ==> r == s
    ensures s.ib.Some? && a.disconnectRaised.None? ==> r.ib == None && !r.connected
    ensures s.ib.Some? && a.disconnectRaised.Some? ==> r.ib == s.ib && r.connected == s.connected
    ensures r.orders == s.orders && r.trades == s.trades
    ensures r.lastError == s.lastError && r.lastOrderId == s.lastOrderId
    ensures Inv(s) ==> Inv(r)
  {
    match s.ib
    case None => s
    case Some(session) =>
      var s1 := s.(calls := s.calls + [CallDisconnect(session)]);
      if a.disconnectRaised.Some? then s1 else s1.(ib := None, connected := false)
  }

  /** The failure path of a trade: record the message, forget the order id. */
  function TradeFailed(s: State, message: string): State {
    s.(lastError := Some(message), lastOrderId := None)
  }

  /** Trade: refuse when not connected; qualify the contract, refuse when none
      matches; place a limit BUY and record it under the broker's order id. */
  function ExecuteTrade(s: State, p: TradeParams, a: Answers): (r: State)
    ensures r.connected == s.connected && r.ib == s.ib && r.trades == s.trades
    ensures r.lastOrderId.Some? <==> s.connected && s.ib.Some? && a.qualify.Qualified? && a.place.Placed?
    ensures r.lastOrderId.None? ==> r.orders == s.orders && r.lastError.Some?
    ensures r.lastOrderId.Some? ==>
              && r.lastOrderId.value == a.place.orderId
              && r.lastError == s.lastError
              && a.place.orderId in r.orders
              && r.orders == s.orders[a.place.orderId := r.orders[a.place.orderId]]
    ensures !s.connected ==> r == TradeFailed(s, NotConnectedMessage)
    ensures s.connected && s.ib.Some? && a.qualify.QualifyRaised? ==> r.lastError == Some(a.qualify.message)
    ensures s.connected && s.ib.Some? && a.qualify.Qualified? && a.place.PlaceRaised? ==>
              r.lastError == Some(a.place.message)
    ensures Inv(s) ==> Inv(r)
  {
    if !s.connected || s.ib.None? then
      TradeFailed(s, NotConnectedMessage)
    else
      var session := s.ib.value;
      var asked := s.(calls := s.calls + [CallQualify(session, p)]);
      match a.qualify
      case QualifyRaised(m) => TradeFailed(asked, m)
      case NoMatch => TradeFailed(asked, ContractNotFoundMessage(p))
      case Qualified(c) =>
        var order := Order(c, "BUY", QtyOf(p), p.price);
        var placing := asked.(calls := asked.calls + [CallPlace(session, c, order)]);
        match a.place
        case PlaceRaised(m) => TradeFailed(placing, m)
        case Placed(id) => placing.(orders := placing.orders[id := order], lastOrderId := Some(id))
  }

  /** Cancel: only a known order, only through a session; the order leaves the
      table only when the brokerage accepted the cancel request. */
  function CancelOrder(s: State, orderId: int, a: Answers): (r: State)
    ensures orderId !in s.orders ==> r == s
    ensures r.orders == s.orders || r.orders == s.orders - {orderId}
    ensures orderId in s.orders ==> (orderId !in r.orders <==> s.ib.Some? && !a.cancelRaised)
    ensures r.lastError == s.lastError && r.lastOrderId == s.lastOrderId
    ensures r.connected == s.connected && r.ib == s.ib && r.trades == s.trades
    ensures Inv(s) ==> Inv(r)
  {
    if orderId !in s.orders || s.ib.None? then
      s
    else
      var s1 := s.(calls := s.calls + [CallCancel(s.ib.value, orderId)]);
      if a.cancelRaised then s1 else s1.(orders := s1.orders - {orderId})
  }

  /** Close: forget the position if it is known; nothing else changes. */
  function ClosePosition(s: State, tradeId: int): (r: State)
    ensures r.trades == s.trades - {tradeId}
    ensures r == s.(trades := r.trades)
  {
    if tradeId in s.trades then s.(trades := s.trades - {tradeId}) else s
  }

  /** One command taken off the queue. A command of any other kind is ignored. */
  function Apply(s: State, cmd: Command, a: Answers): State {
    match cmd
    case ConnectCmd(host, port, clientId) => Connect(s, host, port, clientId, a)
    case DisconnectCmd => Disconnect(s, a)
    case TradeCmd(p) => ExecuteTrade(s, p, a)
    case CancelCmd(id) => CancelOrder(s, id, a)
    case CloseCmd(id) => ClosePosition(s, id)
    case OtherCmd(_) => s
  }

  /** The worker draining `cmds` in order, the i-th command seeing `answers[i]`. */
  function Run(s: State, cmds: seq<Command>, answers: seq<Answers>): State
    requires |answers| == |cmds|
    decreases |cmds|
  {
    if cmds == [] then s
    else Run(Apply(s, cmds[0], answers[0]), cmds[1..], answers[1..])
  }

  // ---------------------------------------------------------------------------
  // Properties of one step

  lemma ApplyPreservesInv(s: State, cmd: Command, a: Answers)
    requires Inv(s)
    ensures Inv(Apply(s, cmd, a))
  {
  }

  /** Each command leaves every table alone except the one it is about: only a
      trade adds an order (exactly its broker id, recorded as the last order id),
      only a cancel removes one (exactly its id), only a close removes a position,
      and nothing ever adds a position. */
  lemma TablesChangeOnlyByTheirCommand(s: State, cmd: Command, a: Answers)
    ensures var r := Apply(s, cmd, a);
      && r.trades.Keys <= s.trades.Keys
      && (!cmd.TradeCmd? && !cmd.CancelCmd? ==> r.orders == s.orders)
      && (cmd.TradeCmd? && r.orders != s.orders ==>
            a.place.Placed? && r.lastOrderId == Some(a.place.orderId)
            && r.orders.Keys == s.orders.Keys + {a.place.orderId})
      && (cmd.CancelCmd? ==> r.orders == s.orders || r.orders == s.orders - {cmd.orderId})
      && (!cmd.CloseCmd? ==> r.trades == s.trades)
  {
    match cmd
    case TradeCmd(p) =>
      var r := ExecuteTrade(s, p, a);
      if r.orders != s.orders {
        assert r.orders.Keys == s.orders.Keys + {a.place.orderId};
      }
    case _ =>
  }

  /** A trade while disconnected records "IBKR not connected", creates no order
      and makes no brokerage call. */
  lemma TradeWhileDisconnected(s: State, p: TradeParams, a: Answers)
    requires !s.connected
    ensures var r := ExecuteTrade(s, p, a);
      && r.lastError == Some(NotConnectedMessage)
      && r.lastOrderId == None
      && r.orders == s.orders
      && r.calls == s.calls
  {
  }

  /** A trade whose contract does not qualify records the not-found message and
      places nothing: the only brokerage call is the qualification. */
  lemma TradeWithoutContract(s: State, p: TradeParams, a: Answers)
    requires Inv(s) && s.connected && a.qualify == NoMatch
    ensures var r := ExecuteTrade(s, p, a);
      && r.lastError == Some(ContractNotFoundMessage(p))
      && r.lastOrderId == None
      && r.orders == s.orders
      && r.calls == s.calls + [CallQualify(s.ib.value, p)]
  {
  }

  /** A successful trade adds exactly its broker id and leaves the error as it was. */
  lemma TradeSucceeds(s: State, p: TradeParams, a: Answers, c: Contract, id: int)
    requires Inv(s) && s.connected && a.qualify == Qualified(c) && a.place == Placed(id)
    ensures var r := ExecuteTrade(s, p, a);
      && r.orders == s.orders[id := Order(c, "BUY", QtyOf(p), p.price)]
      && r.lastOrderId == Some(id)
      && r.lastError == s.lastError
      && r.calls == s.calls + [CallQualify(s.ib.value, p), CallPlace(s.ib.value, c, Order(c, "BUY", QtyOf(p), p.price))]
  {
  }

  /** Reconnecting while a session is live closes that session exactly once,
      before the new session, which is one never used before, is opened. */
  lemma ReconnectTearsDownOnce(s: State, host: string, port: int, clientId: int, a: Answers)
    requires Inv(s) && s.ib.Some? && a.oldSessionLive && a.disconnectRaised.None?
    ensures var r := Connect(s, host, port, clientId, a);
      var newSession := Session(s.nextSession);
      && r.calls == s.calls + [CallDisconnect(s.ib.value), CallConnect(newSession, host, port, clientId)]
      && newSession != s.ib.value
      && (forall i :: 0 <= i < |s.calls| ==> SessionOf(s.calls[i]) != newSession)
      && r.ib == Some(newSession)
  {
  }

  /** Cancelling an unknown order changes nothing; cancelling the same order
      twice is the same as cancelling it once. */
  lemma CancelIdempotent(s: State, orderId: int, a1: Answers, a2: Answers)
    requires a1.cancelRaised == false
    ensures orderId !in s.orders ==> CancelOrder(s, orderId, a1) == s
    ensures var once := CancelOrder(s, orderId, a1);
      CancelOrder(once, orderId, a2).orders == once.orders
  {
  }

  // ---------------------------------------------------------------------------
  // Properties of a run

  lemma {:induction false} RunPreservesInv(s: State, cmds: seq<Command>, answers: seq<Answers>)
    requires Inv(s) && |answers| == |cmds|
    ensures Inv(Run(s, cmds, answers))
    decreases |cmds|
  {
    if cmds != [] {
      ApplyPreservesInv(s, cmds[0], answers[0]);
      RunPreservesInv(Apply(s, cmds[0], answers[0]), cmds[1..], answers[1..]);
    }
  }

  /** Running two batches one after the other is running their concatenation:
      the queue is drained in order, each command seeing the state its
      predecessors left. */
  lemma {:induction false} RunAppend(s: State, c1: seq<Command>, a1: seq<Answers>, c2: seq<Command>, a2: seq<Answers>)
    requires |a1| == |c1| && |a2| == |c2|
    ensures Run(s, c1 + c2, a1 + a2) == Run(Run(s, c1, a1), c2, a2)
    decreases |c1|
  {
    if c1 == [] {
      assert c1 + c2 == c2 && a1 + a2 == a2;
    } else {
      assert (c1 + c2)[1..] == c1[1..] + c2;
      assert (a1 + a2)[1..] == a1[1..] + a2;
      RunAppend(Apply(s, c1[0], a1[0]), c1[1..], a1[1..], c2, a2);
    }
  }

  /** Brokerage calls are only ever appended: what a command asked of the
      brokerage stays ahead of everything later commands ask. */
  lemma {:induction false} RunExtendsCalls(s: State, cmds: seq<Command>, answers: seq<Answers>)
    requires |answers| == |cmds|
    ensures s.calls <= Run(s, cmds, answers).calls
    decreases |cmds|
  {
    if cmds != [] {
      var s1 := Apply(s, cmds[0], answers[0]);
      assert s.calls <= s1.calls;
      RunExtendsCalls(s1, cmds[1..], answers[1..]);
    }
  }

  /** No command ever adds a position, so the position table never grows; from
      the initial state it stays empty. */
  lemma {:induction false} RunNeverAddsPositions(s: State, cmds: seq<Command>, answers: seq<Answers>)
    requires |answers| == |cmds|
    ensures Run(s, cmds, answers).trades.Keys <= s.trades.Keys
    ensures s == Initial() ==> Run(s, cmds, answers).trades == map[]
    decreases |cmds|
  {
    if cmds != [] {
      var s1 := Apply(s, cmds[0], answers[0]);
      TablesChangeOnlyByTheirCommand(s, cmds[0], answers[0]);
      RunNeverAddsPositions(s1, cmds[1..], answers[1..]);
    }
  }

  /** FIFO: a connect queued just before a trade has run by the time the trade
      is handled, so a connect that succeeds lets the trade reach the brokerage
      through the new session. */
  lemma ConnectThenTrade(s: State, host: string, port: int, clientId: int, p: TradeParams,
                         a1: Answers, a2: Answers, c: Contract, id: int)
    requires Inv(s)
    requires a1.connect == Opened && a1.disconnectRaised.None?
    requires a2.qualify == Qualified(c) && a2.place == Placed(id)
    ensures var r := Run(s, [ConnectCmd(host, port, clientId), TradeCmd(p)], [a1, a2]);
      && r.connected
      && r.lastOrderId == Some(id)
      && id in r.orders
      && r.calls == Connect(s, host, port, clientId, a1).calls
                    + [CallQualify(Session(s.nextSession), p),
                       CallPlace(Session(s.nextSession), c, Order(c, "BUY", QtyOf(p), p.price))]
  {
    var s1 := Connect(s, host, port, clientId, a1);
    assert Run(s, [ConnectCmd(host, port, clientId), TradeCmd(p)], [a1, a2]) == Run(s1, [TradeCmd(p)], [a2]);
    assert Run(s1, [TradeCmd(p)], [a2]) == Run(ExecuteTrade(s1, p, a2), [], []);
    TradeSucceeds(s1, p, a2, c, id);
  }
}
