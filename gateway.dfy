/** The HTTP handlers' reply rules. The trade and connect handlers enqueue a
    command, wait, and then answer from whatever the shared fields hold at that
    moment; these functions are that answer as a function of the observed
    fields. The cancel, close and disconnect handlers reply with a constant. Python
    truthiness is written out: an empty error message and an order id of 0 count
    as absent. */
module Gateway {
  import opened Base
  import opened Worker

  datatype Reply = Reply(ok: bool, code: int, message: string, orderId: Option<int>)

  const NoOrderIdMessage: string := "Order failed - no order ID received"
  const CancelledMessage: string := "Order cancelled"
  const ClosedMessage: string := "Position closed"
  const ConnectedMessage: string := "Connected"
  const DisconnectedMessage: string := "Disconnected"
  const OrderPlacedMessage: string := "Order placed"

  /** `if self.last_ib_error:` */
  predicate ErrorSet(e: Option<string>) { e.Some? && e.value != "" }

  /** `if self.last_order_id:` */
  predicate OrderIdSet(id: Option<int>) { id.Some? && id.value != 0 }

  function Success(message: string): Reply { Reply(true, 200, message, None) }

  function Failure(code: int, message: string): Reply { Reply(false, code, message, None) }

  /** Reply of the trade endpoint when the worker is not connected; nothing is queued. */
  function TradeRefused(): Reply { Failure(400, NotConnectedMessage) }

  /** Reply of the trade endpoint after its wait: a recorded error wins, then a
      missing order id, else success carrying the id. */
  function ExecuteTradeReply(lastError: Option<string>, lastOrderId: Option<int>): (r: Reply)
    ensures r.ok <==> !ErrorSet(lastError) && OrderIdSet(lastOrderId)
    ensures r.ok ==> r.code == 200 && r.orderId == lastOrderId
    ensures !r.ok ==> r.code == 500 && r.orderId == None
    ensures ErrorSet(lastError) ==> r.message == lastError.value
  {
    if ErrorSet(lastError) then Failure(500, lastError.value)
    else if !OrderIdSet(lastOrderId) then Failure(500, NoOrderIdMessage)
    else Reply(true, 200, OrderPlacedMessage, lastOrderId)
  }

  /** Reply of the connect endpoint after its wait: success iff the connected
      flag is set, else the recorded error or a generic message. */
  function ConnectReply(connected: bool, lastError: Option<string>): (r: Reply)
    ensures r.ok <==> connected
    ensures !connected ==> r.code == 500 && r.message != ""
    ensures !connected && ErrorSet(lastError) ==> r.message == lastError.value
    ensures !connected && !ErrorSet(lastError) ==> r.message == ConnectionFailedMessage
  {
    if connected then Success(ConnectedMessage)
    else Failure(500, if ErrorSet(lastError) then lastError.value else ConnectionFailedMessage)
  }

  // ---------------------------------------------------------------------------
  // Replies against what the worker did

  /** The trade endpoint clears both fields before queueing; if its own trade is
      the only command the worker handles before the reply, the reply reports
      that trade: success with the broker's id exactly when an order was placed
      under a non-zero id, the not-found message when no contract matched, and
      the failure reply (although the order is in the table) when the broker's
      id is 0. */
  lemma TradeReplyReflectsOutcome(s: State, p: TradeParams, a: Answers)
    requires Inv(s) && s.connected
    ensures var r := ExecuteTrade(s.(lastError := None, lastOrderId := None), p, a);
      var reply := ExecuteTradeReply(r.lastError, r.lastOrderId);
      && (reply.ok <==> a.qualify.Qualified? && a.place.Placed? && a.place.orderId != 0)
      && (reply.ok ==> reply.orderId == Some(a.place.orderId) && a.place.orderId in r.orders)
      && (a.qualify == NoMatch ==> reply.message == ContractNotFoundMessage(p) && r.orders == s.orders)
      && (a.qualify.Qualified? && a.place == Placed(0) ==> !reply.ok && reply.message == NoOrderIdMessage && 0 in r.orders)
  {
    var cleared := s.(lastError := None, lastOrderId := None);
    assert Inv(cleared);
    var r := ExecuteTrade(cleared, p, a);
    assert ContractNotFoundMessage(p) != "";
    if a.qualify.Qualified? && a.place.Placed? {
      assert r.lastError == None;
    }
  }

  /** The connect endpoint reports its own connect, if that is the command the
      worker handled before the reply: success iff the new session opened, else
      the recorded message, or "Connection failed" when that message is empty. */
  lemma ConnectReplyReflectsOutcome(s: State, host: string, port: int, clientId: int, a: Answers)
    ensures var r := Connect(s, host, port, clientId, a);
      var reply := ConnectReply(r.connected, r.lastError);
      var tornDown := !(s.ib.Some? && a.oldSessionLive && a.disconnectRaised.Some?);
      && (reply.ok <==> tornDown && a.connect == Opened)
      && (tornDown && a.connect == NotOpened ==> reply.message == ConnectionFailedMessage)
      && (tornDown && a.connect.ConnectRaised? ==>
            reply.message == if a.connect.message == "" then ConnectionFailedMessage else a.connect.message)
  {
  }

  /** The shared error field leaks between requests: a trade that was placed is
      reported as failed when a connect queued behind it by another caller fails
      before the trade endpoint reads the fields. */
  lemma ForeignErrorReachesTradeReply(s: State, p: TradeParams, c: Contract)
    requires Inv(s) && s.connected
    ensures var cleared := s.(lastError := None, lastOrderId := None);
      var placed := Answers(false, None, Opened, Qualified(c), Placed(7), false);
      var refused := Answers(false, None, ConnectRaised("timeout"), NoMatch, Placed(0), false);
      var r := Run(cleared, [TradeCmd(p), ConnectCmd("127.0.0.1", 7497, 1)], [placed, refused]);
      && 7 in r.orders
      && ExecuteTradeReply(r.lastError, r.lastOrderId) == Failure(500, "timeout")
  {
    var cleared := s.(lastError := None, lastOrderId := None);
    var placed := Answers(false, None, Opened, Qualified(c), Placed(7), false);
    var refused := Answers(false, None, ConnectRaised("timeout"), NoMatch, Placed(0), false);
    var r1 := ExecuteTrade(cleared, p, placed);
    assert 7 in r1.orders;
    var r2 := Connect(r1, "127.0.0.1", 7497, 1, refused);
    assert Run(cleared, [TradeCmd(p), ConnectCmd("127.0.0.1", 7497, 1)], [placed, refused]) == Run(r1, [ConnectCmd("127.0.0.1", 7497, 1)], [refused]);
    assert Run(r1, [ConnectCmd("127.0.0.1", 7497, 1)], [refused]) == Run(r2, [], []);
  }
}
