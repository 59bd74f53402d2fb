/** The order logic as the object it is: handlers that update fields, each proved to take the step of the model. */
module PrimeLogic {
  import opened Basics
  import opened PrimeModel

  class PrimeLogic {
    var orders: map<DispenserId, Order>
    var dispensers: map<DispenserId, Dispenser>
    var tankers: seq<Tanker>
    var products: set<ProductId>
    var paymentRequestedOrderIds: set<OrderId>
    var isServerReadyForStartFuel: bool
    var dwinButtonNextForStartFuel: bool
    var pendingInfoSales: map<OrderId, SaleType>
    var pendingLevelGaugeOrders: map<GaugeId, seq<Task>>
    var currentDispenserId: DispenserId
    ghost var trace: seq<Output>

    constructor ()
      ensures Abs() == INITIAL
    {
      orders, dispensers, tankers, products := map[], map[], [], {};
      paymentRequestedOrderIds, isServerReadyForStartFuel, dwinButtonNextForStartFuel := {}, false, false;
      pendingInfoSales, pendingLevelGaugeOrders, currentDispenserId, trace := map[], map[], "", [];
    }

    ghost function Abs(): State
      reads this
    {
      State(orders, dispensers, tankers, products, paymentRequestedOrderIds, isServerReadyForStartFuel,
            dwinButtonNextForStartFuel, pendingInfoSales, pendingLevelGaugeOrders, currentDispenserId, trace)
    }

    ghost method Output(o: Output)
      modifies this`trace
      ensures Abs() == Emit(old(Abs()), o)
    {
      trace := trace + [o];
    }

    /** The first gauge of the first tanker that holds the product and has gauges. */
    method LevelGaugeIdByProductId(product: ProductId) returns (g: GaugeId)
      ensures g == GaugeFor(tankers, product)
    {
      var i := 0;
      while i < |tankers|
        invariant 0 <= i <= |tankers| && GaugeFor(tankers[i..], product) == GaugeFor(tankers, product)
      {
        if tankers[i].product == product && tankers[i].gauges != [] {
          return tankers[i].gauges[0];
        }
        assert tankers[i..][1..] == tankers[i + 1..];
        i := i + 1;
      }
      return "";
    }

    method GetDispenserStatus(d: DispenserId)
      modifies this`trace
      ensures Abs() == AskStatus(old(Abs()), d)
    {
      if d != "" {
        Output(GetStatus(d));
      }
    }

    /** `m_pending_level_gauge_orders[g].push(task)` and the request for the gauge's readings. */
    method PushGaugeTask(g: GaugeId, task: Task, ghost origin: Origin)
      modifies this`pendingLevelGaugeOrders, this`trace
      ensures Abs() == Push(old(Abs()), g, task, origin)
    {
      var waiting := if g in pendingLevelGaugeOrders then pendingLevelGaugeOrders[g] else [];
      pendingLevelGaugeOrders := pendingLevelGaugeOrders[g := waiting + [task]];
      Output(TaskPushed(g, task, origin));
      Output(GetParameters(g));
    }

    /** `m_pending_info_sales[o]`, which creates an entry where there is none. */
    method TouchSale(o: OrderId)
      modifies this`pendingInfoSales, this`trace
      ensures Abs() == OpenSale(old(Abs()), o)
    {
      if o !in pendingInfoSales {
        pendingInfoSales := pendingInfoSales[o := Untyped];
        Output(SaleOpened(o));
      }
    }

    method SetPendingType(o: OrderId, t: SaleType)
      modifies this`pendingInfoSales
      ensures Abs() == SetSaleType(old(Abs()), o, t)
    {
      if o in pendingInfoSales {
        pendingInfoSales := pendingInfoSales[o := t];
      }
    }

    method AuthorizeOnServer()
      modifies this`isServerReadyForStartFuel, this`dwinButtonNextForStartFuel, this`trace
      ensures Abs() == PrimeModel.AuthorizeOnServer(old(Abs()))
    {
      if isServerReadyForStartFuel && dwinButtonNextForStartFuel {
        Output(Authorize(currentDispenserId));
        isServerReadyForStartFuel := false;
        dwinButtonNextForStartFuel := false;
      }
    }

    method PrintDebetReceipt()
      modifies this
      ensures Abs() == PrimeModel.PrintDebetReceipt(old(Abs()))
    {
      hide OpenSale;
      if currentDispenserId != "" && currentDispenserId in orders {
        var order := orders[currentDispenserId];
        if order.product in products {
          TouchSale(order.id);
          Output(PrintDebit(order.id));
        }
      }
    }

    method TouchBeginFuelling()
      modifies this
      ensures Abs() == TouchBegin(old(Abs()))
    {
      hide PrimeModel.AuthorizeOnServer, PrimeModel.PrintDebetReceipt;
      dwinButtonNextForStartFuel := true;
      Output(BeginTouched);
      AuthorizeOnServer();
      PrintDebetReceipt();
    }

    method HandleDispenserOrderCreated(d: DispenserId, o: OrderId)
      modifies this
      ensures Abs() == CreateOrder(old(Abs()), d, o)
    {
      hide PrimeModel.AuthorizeOnServer, AskStatus;
      isServerReadyForStartFuel := true;
      Output(OrderCreated(d, o));
      AuthorizeOnServer();
      orders := orders[d := Order(o, NoOrderStatus, "", false, false)];
      GetDispenserStatus(d);
    }

    /** What both status handlers do when the pistol is put back. */
    method CloseReturned(d: DispenserId, dispenser: Dispenser)
      modifies this`orders, this`pendingLevelGaugeOrders, this`trace
      ensures Abs() == ReturnPistol(old(Abs()), d, dispenser)
    {
      hide Push, GaugeFor;
      Output(Close(d));
      Output(PistolReturned(d));
      var order := if d in orders then orders[d] else NO_ORDER;
      orders := orders[d := order.(closed := true)];
      var g := LevelGaugeIdByProductId(dispenser.product);
      if order.finalized {
        PushGaugeTask(g, Task(dispenser.orderId, d, AfterFuelling), AtClosing);
      }
    }

    method HandleRandomDispenserStatus(d: DispenserId, c: StatusChange)
      modifies this
      ensures Abs() == RandomStatus(old(Abs()), d, c)
    {
      hide ReturnPistol;
      if d !in dispensers {
        return;
      }
      var dispenser := dispensers[d];
      dispenser := dispenser.(prev := dispenser.status, status := c.status);
      if c.nozzle.Some? {
        dispenser := dispenser.(product := c.nozzle.value);
      }
      dispensers := dispensers[d := dispenser];
      if c.status == Idle && (dispenser.prev == Complete || dispenser.prev == Fuelling) {
        CloseReturned(d, dispenser);
      }
    }

    method HandleDispenserStatus(d: DispenserId, c: StatusChange)
      modifies this
      ensures Abs() == SelectedStatus(old(Abs()), d, c)
    {
      hide ReturnPistol, AskStatus;
      if d !in dispensers {
        return;
      }
      var dispenser := dispensers[d];
      dispenser := dispenser.(prev := dispenser.status, status := c.status);
      if c.nozzle.Some? {
        dispenser := dispenser.(product := c.nozzle.value);
      }
      dispensers := dispensers[d := dispenser];
      if c.status == Idle {
        if dispenser.prev == Complete || dispenser.prev == Fuelling {
          CloseReturned(d, dispenser);
          Output(ClearCard);
        }
        if dispenser.prev == Complete || dispenser.prev == Halted {
          GetDispenserStatus(d);
          currentDispenserId := "";
          dispensers := dispensers[d := dispenser.(prev := NoStatus)];
        }
      }
    }

    method HandleDispenserOrderStatus(d: DispenserId, c: OrderChange)
      modifies this
      ensures Abs() == ChangeOrder(old(Abs()), d, c)
    {
      hide Push, GaugeFor, OpenSale, AskStatus;
      var order := if d in orders then orders[d] else NO_ORDER;
      var g := LevelGaugeIdByProductId(order.product);
      if c.status.Some? {
        order := order.(status := c.status.value);
      }
      orders := orders[d := order];
      if c.status == Some(Interrupted) || c.status == Some(Delivered) {
        GetDispenserStatus(d);
      } else if c.status == Some(OrderAuthorized) {
        TouchSale(order.id);
        PushGaugeTask(g, Task(order.id, d, BeforeFuelling), AtAuthorization);
      }
    }

    /** One element of a message's list of events. */
    method ProcessEvent(e: Event)
      requires e.DeviceEvent?
      modifies this
      ensures Abs() == ProcessDeviceEvent(old(Abs()), e)
    {
      hide ChangeOrder, RandomStatus, SelectedStatus, CreateOrder;
      if e.orderChange.Some? {
        HandleDispenserOrderStatus(e.dispenser, e.orderChange.value);
      }
      if e.statusChange.Some? {
        HandleRandomDispenserStatus(e.dispenser, e.statusChange.value);
      }
      if e.dispenser == currentDispenserId {
        if e.statusChange.Some? {
          HandleDispenserStatus(e.dispenser, e.statusChange.value);
        } else if e.displayChange {
          // only the progress display
        } else if e.created.Some? {
          HandleDispenserOrderCreated(e.dispenser, e.created.value);
        }
      }
    }

    method ProcessEvents(events: seq<Event>)
      requires forall e <- events :: e.DeviceEvent?
      modifies this
      ensures Abs() == Through(old(Abs()), events)
    {
      hide ProcessDeviceEvent;
      for i := 0 to |events|
        invariant Abs() == Through(old(Abs()), events[..i])
      {
        ProcessEvent(events[i]);
        assert events[..i + 1] == events[..i] + [events[i]];
        ThroughOneMore(old(Abs()), events[..i], events[i]);
      }
      assert events[..|events|] == events;
    }

    method ProcessOrderFinalization(d: DispenserId)
      modifies this
      ensures Abs() == Finalize(old(Abs()), d)
    {
      hide Push, GaugeFor, SetSaleType;
      var order := if d in orders then orders[d] else NO_ORDER;
      if order.finalized {
        return;
      }
      SetPendingType(order.id, Full);
      if order.status == Interrupted && order.product in products {
        SetPendingType(order.id, Partial);
        Output(PrintRefund(order.id));
      }
      orders := orders[d := order.(finalized := true)];
      var g := LevelGaugeIdByProductId(order.product);
      if order.closed {
        PushGaugeTask(g, Task(order.id, d, AfterFuelling), AtFinalization);
      }
      Output(PayConfirm(order.id, order.status == Interrupted, d));
    }

    /** The end of a failed payment: everything but the pages. */
    method FailedPayment(o: OrderId)
      modifies this
      ensures Abs() == FailPayment(old(Abs()), o)
    {
      Output(Close(currentDispenserId));
      Output(ClearCard);
      if o in pendingInfoSales {
        pendingInfoSales := pendingInfoSales - {o};
        Output(SaleDropped(o));
      }
    }

    method HandlePaymentResponse(o: OrderId, r: PaymentResult)
      modifies this
      ensures Abs() == AnswerPayment(old(Abs()), o, r)
    {
      hide FailPayment;
      match r
      case Paid =>
      case PinMissing =>
      case PinWrong =>
      case NoMoney => FailedPayment(o);
      case OtherFailure => FailedPayment(o);
    }

    /** Sends the payment; a terminal that refuses it answers with a failure before the send returns. */
    method CreatePayment(o: OrderId, refused: bool)
      modifies this
      ensures Abs() == PrimeModel.CreatePayment(old(Abs()), o, refused)
    {
      hide FailPayment;
      if o == "" {
        return;
      }
      if o in paymentRequestedOrderIds {
        return;
      }
      Output(PayTransaction(o));
      if refused {
        HandlePaymentResponse(o, OtherFailure);
      }
      paymentRequestedOrderIds := paymentRequestedOrderIds + {o};
    }

    /** The part of a polled status about the order: an order the dispenser is not known to have is closed. */
    method ProcessPolledOrder(d: DispenserId, p: PolledOrder, refused: bool)
      requires d in dispensers
      modifies this
      ensures Abs() == PollOrder(old(Abs()), d, p, refused)
    {
      hide Finalize, OpenSale, PrimeModel.CreatePayment;
      if d !in orders || orders[d].id != p.id {
        Output(Close(d));
        return;
      }
      dispensers := dispensers[d := dispensers[d].(orderId := p.id)];
      Output(OrderPolled(d));
      orders := orders[d := orders[d].(status := p.status)];
      if p.status == Interrupted || p.status == Delivered {
        ProcessOrderFinalization(d);
      }
      TouchSale(p.id);
      CreatePayment(p.id, refused);
    }

    method ProcessDispenserStatus(d: DispenserId, status: DispenserStatus, nozzle: Option<ProductId>,
                                  polled: Option<PolledOrder>, refused: bool)
      modifies this
      ensures Abs() == PollStatus(old(Abs()), d, status, nozzle, polled, refused)
    {
      hide PollOrder;
      if d !in dispensers {
        return;
      }
      var dispenser := dispensers[d];
      dispenser := dispenser.(prev := dispenser.status, status := status);
      if nozzle.Some? {
        dispenser := dispenser.(product := nozzle.value);
        var order := if d in orders then orders[d] else NO_ORDER;
        orders := orders[d := order.(product := nozzle.value)];
      }
      dispensers := dispensers[d := dispenser];
      if polled.Some? {
        ProcessPolledOrder(d, polled.value, refused);
      }
    }

    /** Readings of a gauge: they serve the task at the head of its queue. */
    method ProcessParameters(g: GaugeId)
      modifies this
      ensures Abs() == AnswerGauge(old(Abs()), g)
    {
      if g in pendingLevelGaugeOrders && pendingLevelGaugeOrders[g] != [] {
        var task := pendingLevelGaugeOrders[g][0];
        pendingLevelGaugeOrders := pendingLevelGaugeOrders[g := pendingLevelGaugeOrders[g][1..]];
        Output(TaskPopped(g, task));
        if task.kind == BeforeFuelling {
          if pendingLevelGaugeOrders[g] == [] {
            pendingLevelGaugeOrders := pendingLevelGaugeOrders - {g};
          }
        } else if task.order in pendingInfoSales {
          Output(ReportSale(task.order, pendingInfoSales[task.order]));
          pendingInfoSales := pendingInfoSales - {task.order};
          Output(TasksDiscarded(g, pendingLevelGaugeOrders[g]));
          pendingLevelGaugeOrders := pendingLevelGaugeOrders - {g};
        }
      }
    }

    method HandleImmediatelyCancelTransaction()
      modifies this
      ensures Abs() == CancelTransaction(old(Abs()))
    {
      hide Push, GaugeFor;
      if currentDispenserId != "" && currentDispenserId in orders {
        var order := orders[currentDispenserId];
        if order.product in products {
          if order.id in pendingInfoSales {
            pendingInfoSales := pendingInfoSales[order.id := Revert];
            var g := LevelGaugeIdByProductId(order.product);
            PushGaugeTask(g, Task(order.id, currentDispenserId, AfterFuelling), AtCancellation);
          }
          Output(PrintRefund(order.id));
          Output(CancelRequest);
          Output(Close(currentDispenserId));
          Output(ClearCard);
        }
      }
    }

    method HandleChooseTRK(d: DispenserId, pricesSet: bool)
      modifies this
      ensures Abs() == Choose(old(Abs()), d, pricesSet)
    {
      if pricesSet && products != {} {
        currentDispenserId := d;
        if d in dispensers && (dispensers[d].status == Fuelling || dispensers[d].status == Complete) && d !in orders {
          orders := orders[d := NO_ORDER];
        }
        assert d in orders ==> orders == orders[d := orders[d]];
      }
    }

    method ProcessDevices(ids: seq<DispenserId>)
      modifies this
      ensures Abs() == Reload(old(Abs()), ids)
    {
      hide AskStatus;
      dispensers := map[];
      Output(DevicesLoaded);
      ghost var start := Abs();
      for i := 0 to |ids|
        invariant Abs() == Register(start, ids[..i])
      {
        dispensers := dispensers[ids[i] := NEW_DISPENSER];
        GetDispenserStatus(ids[i]);
        assert ids[..i + 1][..i] == ids[..i];
      }
      assert ids[..|ids|] == ids;
    }

    /** The dispatch over the events that reach the object. */
    method Handle(e: Event)
      modifies this
      ensures Abs() == Step(old(Abs()), e)
    {
      hide Reload, Choose, TouchBegin, AskStatus, CancelTransaction, ProcessDeviceEvent, PollStatus;
      hide AnswerGauge, AnswerPayment;
      match e
      case LoadDevices(ids) => ProcessDevices(ids);
      case LoadTankers(more) => tankers := tankers + more;
      case LoadProducts(more) => products := products + more;
      case ChooseDispenser(d, pricesSet) => HandleChooseTRK(d, pricesSet);
      case LeaveDispenser => currentDispenserId := "";
      case NewOrderTouch =>
        Output(ClearCard);
        currentDispenserId := "";
      case BeginTouch => TouchBeginFuelling();
      case CloseTouch =>
        Output(Close(currentDispenserId));
        GetDispenserStatus(currentDispenserId);
      case CancelTouch => HandleImmediatelyCancelTransaction();
      case CancelPinTouch =>
        Output(Close(currentDispenserId));
        Output(ClearCard);
      case DeviceEvent(_, _, _, _, _) => ProcessEvent(e);
      case StatusPoll(d, status, nozzle, polled, refused) => ProcessDispenserStatus(d, status, nozzle, polled, refused);
      case GaugeAnswer(g) => ProcessParameters(g);
      case PaymentAnswer(o, r) => HandlePaymentResponse(o, r);
    }
  }
}
