/** The trading suite object: the shared fields the worker and the HTTP
    handlers read and write, the command queue, the worker's handlers and loop,
    and the request handlers that feed the queue and answer from the fields.
    The worker handlers, the worker loop and the trade and connect handlers are
    proved against the value-level description in `Worker` and `Gateway`; the
    option-chain handler against `OptionChain`; the cancel, close, disconnect and
    price handlers state their effect on the queue or the price directly. */
module Suite {
  import opened Base
  import opened Worker
  import opened Gateway
  import OptionChain

  class TradingSuite {
    var ib: Option<Session>
    var ibConnected: bool
    var lastIbError: Option<string>
    var lastOrderId: Option<int>
    var orders: map<int, Order>
    var trades: map<int, Position>
    /** Id of the next session object a connect creates. */
    var nextSession: nat
    /** Every logged brokerage call made so far, oldest first. */
    var calls: seq<BrokerCall>
    /** Commands waiting for the worker, oldest first. */
    var ibQueue: seq<Command>
    var spyPrice: Option<real>

    /** The worker-visible fields as one value. */
    function Snapshot(): State
      reads this
    {
      State(ib, ibConnected, lastIbError, lastOrderId, orders, trades, nextSession, calls)
    }

    ghost predicate Valid()
      reads this
    {
      Inv(Snapshot())
    }

    constructor ()
      ensures Valid()
      ensures Snapshot() == Initial() && ibQueue == [] && spyPrice == None
    {
      ib, ibConnected, lastIbError, lastOrderId := None, false, None, None;
      orders, trades := map[], map[];
      nextSession, calls := 0, [];
      ibQueue := [];
      spyPrice := None;
    }

    // -------------------------------------------------------------------------
    // Worker handlers

    method IbConnect(host: string, port: int, clientId: int, a: Answers)
      requires Valid()
      modifies this`ib, this`ibConnected, this`lastIbError, this`nextSession, this`calls
      ensures Valid()
      ensures Snapshot() == Connect(old(Snapshot()), host, port, clientId, a)
    {
      if ib.Some? && a.oldSessionLive {
        calls := calls + [CallDisconnect(ib.value)];
        if a.disconnectRaised.Some? {
          ibConnected := false;
          lastIbError := a.disconnectRaised;
          return;
        }
      }
      var session := Session(nextSession);
      nextSession := nextSession + 1;
      ib := Some(session);
      calls := calls + [CallConnect(session, host, port, clientId)];
      match a.connect {
        case Opened =>
          ibConnected := true;
          lastIbError := None;
        case NotOpened =>
          ibConnected := false;
          lastIbError := Some(ConnectionFailedMessage);
        case ConnectRaised(m) =>
          ibConnected := false;
          lastIbError := Some(m);
      }
    }

    method IbDisconnect(a: Answers)
      requires Valid()
      modifies this`ib, this`ibConnected, this`calls
      ensures Valid()
      ensures Snapshot() == Disconnect(old(Snapshot()), a)
    {
      if ib.Some? {
        calls := calls + [CallDisconnect(ib.value)];
        if a.disconnectRaised.None? {
          ib := None;
          ibConnected := false;
        }
      }
    }

    method IbExecuteTrade(p: TradeParams, a: Answers)
      requires Valid()
      modifies this`lastIbError, this`lastOrderId, this`orders, this`calls
      ensures Valid()
      ensures Snapshot() == ExecuteTrade(old(Snapshot()), p, a)
    {
      if !ibConnected || ib.None? {
        lastIbError, lastOrderId := Some(NotConnectedMessage), None;
        return;
      }
      var session := ib.value;
      calls := calls + [CallQualify(session, p)];
      match a.qualify {
        case QualifyRaised(m) =>
          lastIbError, lastOrderId := Some(m), None;
        case NoMatch =>
          lastIbError, lastOrderId := Some(ContractNotFoundMessage(p)), None;
        case Qualified(c) =>
          var order := Order(c, "BUY", QtyOf(p), p.price);
          calls := calls + [CallPlace(session, c, order)];
          match a.place {
            case PlaceRaised(m) =>
              lastIbError, lastOrderId := Some(m), None;
            case Placed(id) =>
              orders := orders[id := order];
              lastOrderId := Some(id);
          }
      }
    }

    method IbCancelOrder(orderId: int, a: Answers)
      requires Valid()
      modifies this`orders, this`calls
      ensures Valid()
      ensures Snapshot() == CancelOrder(old(Snapshot()), orderId, a)
    {
      if orderId in orders && ib.Some? {
        calls := calls + [CallCancel(ib.value, orderId)];
        if !a.cancelRaised {
          orders := orders - {orderId};
        }
      }
    }

    method IbClosePosition(tradeId: int)
      requires Valid()
      modifies this`trades
      ensures Valid()
      ensures Snapshot() == ClosePosition(old(Snapshot()), tradeId)
    {
      if tradeId in trades {
        trades := trades - {tradeId};
      }
    }

    // -------------------------------------------------------------------------
    // Worker loop

    /** One turn of the worker loop: take the oldest command, if any, and
        handle it; a command of unknown kind is dropped. */
    method Step(a: Answers) returns (took: bool)
      requires Valid()
      modifies this
      ensures Valid()
      ensures took <==> old(ibQueue) != []
      ensures took ==> ibQueue == old(ibQueue)[1..] && Snapshot() == Apply(old(Snapshot()), old(ibQueue)[0], a)
      ensures !took ==> ibQueue == old(ibQueue) && Snapshot() == old(Snapshot())
      ensures spyPrice == old(spyPrice)
    {
      if ibQueue == [] {
        return false;
      }
      var cmd := ibQueue[0];
      ibQueue := ibQueue[1..];
      match cmd {
        case ConnectCmd(host, port, clientId) => IbConnect(host, port, clientId, a);
        case DisconnectCmd => IbDisconnect(a);
        case TradeCmd(p) => IbExecuteTrade(p, a);
        case CancelCmd(id) => IbCancelOrder(id, a);
        case CloseCmd(id) => IbClosePosition(id);
        case OtherCmd(_) =>
      }
      return true;
    }

    /** The worker handling the oldest `|answers|` commands in order. */
    method Drain(answers: seq<Answers>)
      requires Valid() && |answers| <= |ibQueue|
      modifies this
      ensures Valid()
      ensures Snapshot() == Run(old(Snapshot()), old(ibQueue)[..|answers|], answers)
      ensures ibQueue == old(ibQueue)[|answers|..]
      ensures spyPrice == old(spyPrice)
    {
      var i := 0;
      while i < |answers|
        invariant 0 <= i <= |answers|
        invariant Valid()
        invariant ibQueue == old(ibQueue)[i..]
        invariant Snapshot() == Run(old(Snapshot()), old(ibQueue)[..i], answers[..i])
        invariant spyPrice == old(spyPrice)
      {
        ghost var before := Snapshot();
        var took := Step(answers[i]);
        RunAppend(old(Snapshot()), old(ibQueue)[..i], answers[..i], [old(ibQueue)[i]], [answers[i]]);
        assert old(ibQueue)[..i + 1] == old(ibQueue)[..i] + [old(ibQueue)[i]];
        assert answers[..i + 1] == answers[..i] + [answers[i]];
        assert Run(before, [old(ibQueue)[i]], [answers[i]]) == Apply(before, old(ibQueue)[i], answers[i]);
        i := i + 1;
      }
      assert answers[..i] == answers;
    }

    // -------------------------------------------------------------------------
    // Request handlers

    /** POST /api/execute_trade: refused outright when not connected; otherwise
        clear the error and order id, queue the trade, let the worker handle
        `worked` commands during the wait, and answer from the fields. */
    method ExecuteTradeRequest(p: TradeParams, worked: seq<Answers>) returns (reply: Reply)
      requires Valid() && |worked| <= |ibQueue| + 1
      modifies this
      ensures Valid()
      ensures !old(ibConnected) ==>
                reply == TradeRefused() && Snapshot() == old(Snapshot()) && ibQueue == old(ibQueue)
      ensures old(ibConnected) ==>
                var queued := old(ibQueue) + [TradeCmd(p)];
                && Snapshot() == Run(old(Snapshot()).(lastError := None, lastOrderId := None), queued[..|worked|], worked)
                && ibQueue == queued[|worked|..]
                && reply == ExecuteTradeReply(lastIbError, lastOrderId)
      ensures spyPrice == old(spyPrice)
    {
      if !ibConnected {
        return TradeRefused();
      }
      lastIbError := None;
      lastOrderId := None;
      ibQueue := ibQueue + [TradeCmd(p)];
      Drain(worked);
      reply := ExecuteTradeReply(lastIbError, lastOrderId);
    }

    /** POST /api/connect_ibkr: queue a connect (defaults 127.0.0.1:7497,
        client 1), let the worker handle `worked` commands during the wait, and
        answer from the connected flag. */
    method ConnectRequest(host: Option<string>, port: Option<int>, clientId: Option<int>, worked: seq<Answers>)
      returns (reply: Reply)
      requires Valid() && |worked| <= |ibQueue| + 1
      modifies this
      ensures Valid()
      ensures var cmd := ConnectCmd(if host.Some? then host.value else "127.0.0.1",
                                    if port.Some? then port.value else 7497,
                                    if clientId.Some? then clientId.value else 1);
              var queued := old(ibQueue) + [cmd];
              && Snapshot() == Run(old(Snapshot()), queued[..|worked|], worked)
              && ibQueue == queued[|worked|..]
      ensures reply == ConnectReply(ibConnected, lastIbError)
      ensures spyPrice == old(spyPrice)
    {
      var cmd := ConnectCmd(if host.Some? then host.value else "127.0.0.1",
                            if port.Some? then port.value else 7497,
                            if clientId.Some? then clientId.value else 1);
      ibQueue := ibQueue + [cmd];
      Drain(worked);
      reply := ConnectReply(ibConnected, lastIbError);
    }

    /** POST /api/cancel_order: queue the cancel and report success at once. */
    method CancelRequest(orderId: int) returns (reply: Reply)
      modifies this`ibQueue
      ensures ibQueue == old(ibQueue) + [CancelCmd(orderId)]
      ensures reply == Success(CancelledMessage)
    {
      ibQueue := ibQueue + [CancelCmd(orderId)];
      reply := Success(CancelledMessage);
    }

    /** POST /api/close_position: queue the close and report success at once. */
    method CloseRequest(tradeId: int) returns (reply: Reply)
      modifies this`ibQueue
      ensures ibQueue == old(ibQueue) + [CloseCmd(tradeId)]
      ensures reply == Success(ClosedMessage)
    {
      ibQueue := ibQueue + [CloseCmd(tradeId)];
      reply := Success(ClosedMessage);
    }

    /** POST /api/disconnect_ibkr: queue the disconnect and report success at once. */
    method DisconnectRequest() returns (reply: Reply)
      modifies this`ibQueue
      ensures ibQueue == old(ibQueue) + [DisconnectCmd]
      ensures reply == Success(DisconnectedMessage)
    {
      ibQueue := ibQueue + [DisconnectCmd];
      reply := Success(DisconnectedMessage);
    }

    /** POST /api/update_price: a missing or zero price is ignored. */
    method UpdatePriceRequest(price: Option<real>) returns (reply: Reply)
      modifies this`spyPrice
      ensures spyPrice == if PriceKnown(price) then price else old(spyPrice)
      ensures reply == Success("")
    {
      if PriceKnown(price) {
        spyPrice := price;
      }
      reply := Success("");
    }

    /** POST /api/get_option_chain: refused when not connected; otherwise the
        handler itself, not the worker, calls the brokerage through the current
        session, and answers from the first chain and the stored price. */
    method OptionChainRequest(answer: OptionChain.ChainAnswer) returns (reply: OptionChain.ChainReply)
      requires Valid()
      modifies this`calls
      ensures Valid()
      ensures !ibConnected ==>
                reply == OptionChain.ChainError(400, NotConnectedMessage) && calls == old(calls)
      ensures ibConnected ==> calls == old(calls) + OptionChain.ChainCalls(ib.value, answer)
      ensures ibConnected && !answer.Chains? ==> reply == OptionChain.ChainError(500, answer.message)
      ensures ibConnected && answer == OptionChain.Chains([]) ==>
                reply == OptionChain.ChainError(404, OptionChain.NoChainsMessage)
      ensures reply.ChainOk? <==> ibConnected && answer.Chains? && answer.chains != []
      ensures reply.ChainOk? ==>
                && answer.Chains? && answer.chains != []
                && reply.expirations == OptionChain.Expirations(answer.chains[0].expirations)
                && reply.strikes == OptionChain.Strikes(answer.chains[0].strikes, spyPrice)
                && reply.exchange == answer.chains[0].exchange
    {
      if ibConnected {
        calls := calls + OptionChain.ChainCalls(ib.value, answer);
      }
      reply := OptionChain.ChainReplyFor(ibConnected, spyPrice, answer);
    }
  }
}
