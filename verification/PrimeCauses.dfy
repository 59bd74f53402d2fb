/** What every command and mark of the order logic is issued for: nothing without its cause, and no cause without its
  effect. */
module PrimeCauses {
  import opened Basics
  import opened PrimeModel
  import PrimeRuns

  // ------------------------------------------------------------- the causes

  /** The poll reports, for a known dispenser, the order the dispenser is known to have, and it is not paid yet. */
  predicate PaymentDue(s: State, e: Event, id: OrderId) {
    e.StatusPoll? && e.polled.Some? && e.dispenser in s.dispensers &&
    id == e.polled.value.id == OrderOf(s, e.dispenser).id && id != "" && id !in s.paid
  }

  /** The event asks for a sale of the order: it polls it on its dispenser, reports it authorized, or prints its
      receipt. */
  predicate AsksForSale(s: State, e: Event, id: OrderId) {
    match e
    case BeginTouch =>
      s.current != "" && s.current in s.orders && s.orders[s.current].product in s.products &&
      id == s.orders[s.current].id
    case DeviceEvent(d, change, _, _, _) =>
      change == Some(OrderChange(Some(OrderAuthorized))) && id == OrderOf(s, d).id
    case StatusPoll(d, _, nozzle, Some(p), _) =>
      d in s.dispensers && (d in s.orders || nozzle.Some?) && id == p.id == OrderOf(s, d).id
    case _ => false
  }

  /** The poll is the first to show the dispenser's order as ended. */
  predicate EndSeen(s: State, e: Event, d: DispenserId) {
    e.StatusPoll? && e.polled.Some? && e.dispenser == d && d in s.dispensers && (d in s.orders || e.nozzle.Some?) &&
    e.polled.value.id == OrderOf(s, d).id && !OrderOf(s, d).finalized &&
    (e.polled.value.status == Interrupted || e.polled.value.status == Delivered)
  }

  /** The event shows that the pistol is back. */
  predicate ReturnSeen(s: State, e: Event, d: DispenserId) {
    e.DeviceEvent? && e.dispenser == d && e.statusChange.Some? && e.statusChange.value.status == Idle &&
    d in s.dispensers && (s.dispensers[d].status == Complete || s.dispensers[d].status == Fuelling)
  }

  /** The chosen dispenser has an order of a known product, which can be cancelled. */
  predicate Cancellable(s: State) {
    s.current != "" && s.current in s.orders && s.orders[s.current].product in s.products
  }

  function Told(nozzle: Option<ProductId>, was: ProductId): ProductId {
    if nozzle.Some? then nozzle.value else was
  }

  /** The event makes this task wait for this gauge. */
  predicate TaskDue(s: State, e: Event, g: GaugeId, task: Task, origin: Origin) {
    var d := task.dispenser;
    var order := OrderOf(s, d);
    match origin
    case AtAuthorization =>
      e.DeviceEvent? && e.dispenser == d && e.orderChange == Some(OrderChange(Some(OrderAuthorized))) &&
      task == Task(order.id, d, BeforeFuelling) && g == GaugeFor(s.tankers, order.product)
    case AtClosing =>
      ReturnSeen(s, e, d) && order.finalized && task == Task(s.dispensers[d].orderId, d, AfterFuelling) &&
      g == GaugeFor(s.tankers, Told(e.statusChange.value.nozzle, s.dispensers[d].product))
    case AtFinalization =>
      EndSeen(s, e, d) && order.closed && task == Task(order.id, d, AfterFuelling) &&
      g == GaugeFor(s.tankers, Told(e.nozzle, order.product))
    case AtCancellation =>
      e.CancelTouch? && Cancellable(s) && d == s.current && order.id in s.sales &&
      task == Task(order.id, d, AfterFuelling) && g == GaugeFor(s.tankers, order.product)
  }

  /** The controller created an order on the chosen dispenser. */
  predicate CreationSeen(s: State, e: Event) {
    e.DeviceEvent? && e.created.Some? && e.statusChange.None? && !e.displayChange && e.dispenser == s.current
  }

  /** The poll shows the order that the dispenser is known to have. */
  predicate OwnOrderSeen(s: State, e: Event) {
    e.StatusPoll? && e.polled.Some? && e.dispenser in s.dispensers && (e.dispenser in s.orders || e.nozzle.Some?) &&
    e.polled.value.id == OrderOf(s, e.dispenser).id
  }

  /** The poll shows an order that the dispenser is not known to have. */
  predicate StrangerSeen(s: State, e: Event) {
    e.StatusPoll? && e.polled.Some? && e.dispenser in s.dispensers && !OwnOrderSeen(s, e)
  }

  /** The payment failed for good, or the terminal refuses the payment that is due. */
  predicate PaymentLost(s: State, e: Event) {
    (e.PaymentAnswer? && (e.result == NoMoney || e.result == OtherFailure)) ||
    (e.StatusPoll? && e.paymentRefused && e.polled.Some? && PaymentDue(s, e, e.polled.value.id))
  }

  /** The order behind a lost payment. */
  function LostOrder(e: Event): OrderId {
    if e.PaymentAnswer? then e.order
    else if e.StatusPoll? && e.polled.Some? then e.polled.value.id else ""
  }

  /** The answer serves the last task of a pending sale. */
  predicate ReportDue(s: State, e: Event) {
    e.GaugeAnswer? && Queue(s, e.gauge) != [] && Queue(s, e.gauge)[0].kind == AfterFuelling &&
    Queue(s, e.gauge)[0].order in s.sales
  }

  /** What must be so, before the event, for the output to be issued. */
  ghost predicate Cause(s: State, e: Event, o: Output) {
    match o
    case PayTransaction(id) => PaymentDue(s, e, id)
    case PayConfirm(id, notComplete, d) =>
      EndSeen(s, e, d) && id == OrderOf(s, d).id && (notComplete <==> e.polled.value.status == Interrupted)
    case ReportSale(id, saleType) =>
      ReportDue(s, e) && id == Queue(s, e.gauge)[0].order && saleType == s.sales[id]
    case Authorize(d) =>
      d == s.current && ((e.BeginTouch? && s.serverReady) || (CreationSeen(s, e) && s.touched))
    case SaleDropped(id) =>
      PaymentLost(s, e) && id == LostOrder(e) && (e.PaymentAnswer? ==> id in s.sales)
    case SaleOpened(id) => id !in s.sales && AsksForSale(s, e, id)
    case PistolReturned(d) => ReturnSeen(s, e, d)
    case TaskPushed(g, task, origin) => TaskDue(s, e, g, task, origin)
    case CancelRequest => e.CancelTouch? && Cancellable(s)
    case Close(d) =>
      (d == s.current &&
       (PaymentLost(s, e) || e.CloseTouch? || e.CancelPinTouch? || (e.CancelTouch? && Cancellable(s)))) ||
      (StrangerSeen(s, e) && d == e.dispenser) || ReturnSeen(s, e, d)
    case ClearCard =>
      PaymentLost(s, e) || e.NewOrderTouch? || e.CancelPinTouch? || (e.CancelTouch? && Cancellable(s))
    case GetStatus(d) =>
      d != "" &&
      ((e.LoadDevices? && d in e.ids) || (e.CloseTouch? && d == s.current) ||
       (CreationSeen(s, e) && d == e.dispenser) ||
       (e.DeviceEvent? && d == e.dispenser && e.orderChange.Some? &&
        (e.orderChange.value.status == Some(Interrupted) || e.orderChange.value.status == Some(Delivered))))
    case GetParameters(g) => exists task, origin :: TaskDue(s, e, g, task, origin)
    case PrintDebit(id) => e.BeginTouch? && Cancellable(s) && id == s.orders[s.current].id
    case PrintRefund(id) =>
      (e.CancelTouch? && Cancellable(s) && id == s.orders[s.current].id) ||
      (e.StatusPoll? && EndSeen(s, e, e.dispenser) && id == e.polled.value.id &&
       e.polled.value.status == Interrupted && Told(e.nozzle, OrderOf(s, e.dispenser).product) in s.products)
    case BeginTouched => e.BeginTouch?
    case OrderCreated(d, id) => CreationSeen(s, e) && d == e.dispenser && id == e.created.value
    case DevicesLoaded => e.LoadDevices?
    case OrderPolled(d) => OwnOrderSeen(s, e) && d == e.dispenser
    case TaskPopped(g, task) => e == GaugeAnswer(g) && Queue(s, g) != [] && task == Queue(s, g)[0]
    case TasksDiscarded(g, tasks) => e == GaugeAnswer(g) && ReportDue(s, e) && tasks == Queue(s, g)[1..]
  }

  /** `t` is reached from `s` by the event, issuing only outputs with a cause. */
  ghost predicate AddsCaused(s: State, e: Event, t: State) {
    s.trace <= t.trace && forall i | |s.trace| <= i < |t.trace| :: Cause(s, e, t.trace[i])
  }

  lemma CausedStart(s: State, e: Event)
    ensures AddsCaused(s, e, s)
  {
    hide Cause;
  }

  lemma CausedEmit(s: State, e: Event, t: State, o: Output)
    requires AddsCaused(s, e, t) && Cause(s, e, o)
    ensures AddsCaused(s, e, Emit(t, o))
  {
    hide Cause;
  }

  lemma CausedSame(s: State, e: Event, t: State, u: State)
    requires AddsCaused(s, e, t) && u.trace == t.trace
    ensures AddsCaused(s, e, u)
  {
    hide Cause;
  }

  lemma CausedAsk(s: State, e: Event, t: State, d: DispenserId)
    requires AddsCaused(s, e, t) && (d != "" ==> Cause(s, e, GetStatus(d)))
    ensures AddsCaused(s, e, AskStatus(t, d))
  {
    hide AddsCaused, Cause, Emit;
    if d != "" {
      CausedEmit(s, e, t, GetStatus(d));
    }
  }

  lemma CausedSaleType(s: State, e: Event, t: State, id: OrderId, saleType: SaleType)
    requires AddsCaused(s, e, t)
    ensures AddsCaused(s, e, SetSaleType(t, id, saleType))
  {
    hide AddsCaused;
    CausedSame(s, e, t, SetSaleType(t, id, saleType));
  }

  lemma CausedSettle(s: State, e: Event, t: State, order: Order)
    requires AddsCaused(s, e, t)
    requires order.status == Interrupted && order.product in t.products ==> Cause(s, e, PrintRefund(order.id))
    ensures AddsCaused(s, e, SettleSale(t, order))
  {
    hide AddsCaused, Cause, SetSaleType, Emit;
    var u := SetSaleType(t, order.id, Full);
    CausedSaleType(s, e, t, order.id, Full);
    CausedSaleType(s, e, u, order.id, Partial);
    ProductsOfSaleType(t, order.id);
    if order.status == Interrupted && order.product in t.products {
      CausedEmit(s, e, SetSaleType(u, order.id, Partial), PrintRefund(order.id));
    }
  }

  lemma ProductsOfSaleType(s: State, id: OrderId)
    ensures SetSaleType(s, id, Full).products == s.products
  {
  }

  lemma {:induction false} CausedRegister(s: State, e: Event, t: State, ids: seq<DispenserId>)
    requires AddsCaused(s, e, t) && forall d <- ids :: d != "" ==> Cause(s, e, GetStatus(d))
    ensures AddsCaused(s, e, Register(t, ids))
  {
    hide AddsCaused, AskStatus, Cause;
    if ids != [] {
      var d, u := ids[|ids| - 1], Register(t, ids[..|ids| - 1]);
      CausedRegister(s, e, t, ids[..|ids| - 1]);
      CausedSame(s, e, u, SetDispenser(u, d, NEW_DISPENSER));
      CausedAsk(s, e, SetDispenser(u, d, NEW_DISPENSER), d);
    }
  }

  lemma LoadingCauses(s: State, e: Event)
    requires e.LoadDevices?
    ensures Cause(s, e, DevicesLoaded) && forall d <- e.ids :: d != "" ==> Cause(s, e, GetStatus(d))
  {
  }

  lemma CausedReload(s: State, e: Event)
    requires e.LoadDevices?
    ensures AddsCaused(s, e, Reload(s, e.ids))
  {
    hide AddsCaused, Register, Cause, Emit;
    var t := s.(dispensers := map[]);
    CausedStart(s, e);
    LoadingCauses(s, e);
    CausedSame(s, e, s, t);
    CausedEmit(s, e, t, DevicesLoaded);
    CausedRegister(s, e, Emit(t, DevicesLoaded), e.ids);
  }

  lemma CausedOpen(s: State, e: Event, t: State, id: OrderId)
    requires AddsCaused(s, e, t) && (id !in t.sales ==> Cause(s, e, SaleOpened(id)))
    ensures AddsCaused(s, e, OpenSale(t, id))
  {
    hide AddsCaused, Cause;
    if id !in t.sales {
      var u := t.(sales := t.sales[id := Untyped]);
      CausedSame(s, e, t, u);
      CausedEmit(s, e, u, SaleOpened(id));
    }
  }

  lemma OpeningIsCaused(s: State, e: Event, id: OrderId)
    requires AsksForSale(s, e, id)
    ensures id !in s.sales ==> Cause(s, e, SaleOpened(id))
  {
  }

  lemma CausedPush(s: State, e: Event, t: State, g: GaugeId, task: Task, origin: Origin)
    requires AddsCaused(s, e, t) && TaskDue(s, e, g, task, origin)
    ensures AddsCaused(s, e, Push(t, g, task, origin))
  {
    hide AddsCaused, Emit, Queue, TaskDue;
    var u := t.(queues := t.queues[g := Queue(t, g) + [task]]);
    CausedSame(s, e, t, u);
    CausedEmit(s, e, u, TaskPushed(g, task, origin));
    CausedEmit(s, e, Emit(u, TaskPushed(g, task, origin)), GetParameters(g));
  }

  lemma PushIssues(s: State, g: GaugeId, task: Task, origin: Origin)
    ensures Issued(s, Push(s, g, task, origin), TaskPushed(g, task, origin))
    ensures Issued(s, Push(s, g, task, origin), GetParameters(g))
  {
    assert Push(s, g, task, origin).trace[|s.trace|] == TaskPushed(g, task, origin);
    assert Push(s, g, task, origin).trace[|s.trace| + 1] == GetParameters(g);
  }

  lemma CausedCancel(s: State, e: Event)
    requires e.CancelTouch?
    ensures AddsCaused(s, e, CancelTransaction(s))
  {
    hide AddsCaused, Push, SetSaleType, GaugeFor, Cause, Emit;
    CausedStart(s, e);
    if Cancellable(s) {
      var order := s.orders[s.current];
      var g, task := GaugeFor(s.tankers, order.product), Task(order.id, s.current, AfterFuelling);
      var u := SetSaleType(s, order.id, Revert);
      CausedSaleType(s, e, s, order.id, Revert);
      if order.id in s.sales {
        CausedPush(s, e, u, g, task, AtCancellation);
      }
      var t := if order.id in s.sales then Push(u, g, task, AtCancellation) else s;
      CancelIsCaused(s, e);
      CausedEmit(s, e, t, PrintRefund(order.id));
      var v := Emit(t, PrintRefund(order.id));
      CausedEmit(s, e, v, CancelRequest);
      CausedEmit(s, e, Emit(v, CancelRequest), Close(s.current));
      CausedEmit(s, e, Emit(Emit(v, CancelRequest), Close(s.current)), ClearCard);
    }
  }

  lemma CancelIsCaused(s: State, e: Event)
    requires e.CancelTouch? && Cancellable(s)
    ensures Cause(s, e, CancelRequest) && Cause(s, e, PrintRefund(s.orders[s.current].id)) && Cause(s, e, ClearCard)
    ensures Cause(s, e, Close(s.current))
  {
  }

  lemma CancelIssues(s: State)
    requires Cancellable(s)
    ensures var order := s.orders[s.current];
            var g, task := GaugeFor(s.tankers, order.product), Task(order.id, s.current, AfterFuelling);
            var t := CancelTransaction(s);
            && Issued(s, t, PrintRefund(order.id)) && Issued(s, t, CancelRequest) && Issued(s, t, Close(s.current))
            && Issued(s, t, ClearCard)
            && (order.id in s.sales ==>
                  Issued(s, t, TaskPushed(g, task, AtCancellation)) && Issued(s, t, GetParameters(g)))
  {
    hide Issued, Push, SetSaleType, GaugeFor;
    var order := s.orders[s.current];
    var g, task := GaugeFor(s.tankers, order.product), Task(order.id, s.current, AfterFuelling);
    var u := SetSaleType(s, order.id, Revert);
    TraceOfSaleType(s, order.id, Revert);
    PushIssues(u, g, task, AtCancellation);
    PushExtends(u, g, task, AtCancellation);
    var t := if order.id in s.sales then Push(u, g, task, AtCancellation) else s;
    var all := CancelTransaction(s);
    var v := Emit(t, PrintRefund(order.id));
    var w := Emit(v, CancelRequest);
    IssuedLast(s, t, PrintRefund(order.id));
    IssuedLast(s, v, CancelRequest);
    IssuedLast(s, w, Close(s.current));
    IssuedLast(s, Emit(w, Close(s.current)), ClearCard);
    IssuedBetween(s, s, v, all, PrintRefund(order.id));
    IssuedBetween(s, s, w, all, CancelRequest);
    IssuedBetween(s, s, Emit(w, Close(s.current)), all, Close(s.current));
    if order.id in s.sales {
      IssuedBetween(s, u, t, all, TaskPushed(g, task, AtCancellation));
      IssuedBetween(s, u, t, all, GetParameters(g));
    }
  }

  lemma TraceOfSaleType(s: State, id: OrderId, t: SaleType)
    ensures SetSaleType(s, id, t).trace == s.trace
  {
  }

  lemma PushExtends(s: State, g: GaugeId, task: Task, origin: Origin)
    ensures s.trace <= Push(s, g, task, origin).trace
  {
  }

  lemma ChangeAsks(s: State, e: Event)
    requires e.DeviceEvent? && e.orderChange.Some?
    requires e.orderChange.value.status == Some(Interrupted) || e.orderChange.value.status == Some(Delivered)
    ensures e.dispenser != "" ==> Cause(s, e, GetStatus(e.dispenser))
  {
  }

  lemma CausedChangeOrder(s: State, e: Event)
    requires e.DeviceEvent? && e.orderChange.Some?
    ensures AddsCaused(s, e, ChangeOrder(s, e.dispenser, e.orderChange.value))
  {
    hide AddsCaused, AskStatus, Push, OpenSale, Cause, GaugeFor;
    var d, c := e.dispenser, e.orderChange.value;
    var order := OrderOf(s, d);
    var t := SetOrder(s, d, if c.status.Some? then order.(status := c.status.value) else order);
    CausedStart(s, e);
    CausedSame(s, e, s, t);
    if c.status == Some(Interrupted) || c.status == Some(Delivered) {
      ChangeAsks(s, e);
      CausedAsk(s, e, t, d);
    } else if c.status == Some(OrderAuthorized) {
      OpeningIsCaused(s, e, order.id);
      CausedOpen(s, e, t, order.id);
      var g, task := GaugeFor(t.tankers, order.product), Task(order.id, d, BeforeFuelling);
      CausedPush(s, e, OpenSale(t, order.id), g, task, AtAuthorization);
    }
  }

  lemma CausedFinalize(s: State, e: Event, t: State, d: DispenserId)
    requires AddsCaused(s, e, t) && d in t.orders
    requires !t.orders[d].finalized ==> Cause(s, e, PayConfirm(t.orders[d].id, t.orders[d].status == Interrupted, d))
    requires var order := t.orders[d];
             !order.finalized && order.closed ==>
               TaskDue(s, e, GaugeFor(t.tankers, order.product), Task(order.id, d, AfterFuelling), AtFinalization)
    requires var order := t.orders[d];
             !order.finalized && order.status == Interrupted && order.product in t.products ==>
               Cause(s, e, PrintRefund(order.id))
    ensures AddsCaused(s, e, Finalize(t, d))
  {
    hide AddsCaused, Cause, TaskDue, SettleSale, Push, GaugeFor;
    var order := t.orders[d];
    if !order.finalized {
      var u := SettleSale(t, order);
      SettleFrame(t, order);
      CausedSettle(s, e, t, order);
      var v := SetOrder(u, d, order.(finalized := true));
      CausedSame(s, e, u, v);
      var g, task := GaugeFor(v.tankers, order.product), Task(order.id, d, AfterFuelling);
      if order.closed {
        CausedPush(s, e, v, g, task, AtFinalization);
      }
      var w := if order.closed then Push(v, g, task, AtFinalization) else v;
      CausedEmit(s, e, w, PayConfirm(order.id, order.status == Interrupted, d));
    }
  }

  lemma SettleFrame(s: State, order: Order)
    ensures SettleSale(s, order).orders == s.orders && SettleSale(s, order).paid == s.paid
    ensures SettleSale(s, order).sales.Keys == s.sales.Keys && SettleSale(s, order).tankers == s.tankers
    ensures SettleSale(s, order).dispensers == s.dispensers && SettleSale(s, order).current == s.current
  {
    hide Emit, SetSaleType;
    FrameOfSaleType(s, order.id, Full);
    FrameOfSaleType(SetSaleType(s, order.id, Full), order.id, Partial);
    FrameOfEmit(SetSaleType(SetSaleType(s, order.id, Full), order.id, Partial), PrintRefund(order.id));
  }

  lemma FrameOfSaleType(s: State, id: OrderId, t: SaleType)
    ensures SetSaleType(s, id, t).orders == s.orders && SetSaleType(s, id, t).paid == s.paid
    ensures SetSaleType(s, id, t).sales.Keys == s.sales.Keys && SetSaleType(s, id, t).tankers == s.tankers
    ensures SetSaleType(s, id, t).dispensers == s.dispensers && SetSaleType(s, id, t).current == s.current
  {
  }

  lemma FrameOfEmit(s: State, o: Output)
    ensures Emit(s, o).orders == s.orders && Emit(s, o).paid == s.paid && Emit(s, o).sales == s.sales
    ensures Emit(s, o).tankers == s.tankers && Emit(s, o).dispensers == s.dispensers
    ensures Emit(s, o).current == s.current
  {
  }

  lemma FinalizeFrame(s: State, d: DispenserId)
    ensures Finalize(s, d).paid == s.paid && Finalize(s, d).sales.Keys == s.sales.Keys
    ensures Finalize(s, d).current == s.current
  {
    hide SetSaleType, GaugeFor, Queue;
    SettleFrame(s, OrderOf(s, d));
    hide SettleSale;
  }

  lemma CausedFailure(s: State, e: Event, t: State, id: OrderId)
    requires AddsCaused(s, e, t) && PaymentLost(s, e) && id == LostOrder(e)
    requires t.current == s.current && (e.PaymentAnswer? ==> t.sales == s.sales)
    ensures AddsCaused(s, e, FailPayment(t, id))
  {
    hide AddsCaused, Cause, Emit, PaymentLost;
    FailureCauses(s, e);
    var u := Emit(t, Close(t.current));
    CausedEmit(s, e, t, Close(t.current));
    FieldsOfEmit(t, Close(t.current));
    var v := Emit(u, ClearCard);
    CausedEmit(s, e, u, ClearCard);
    FieldsOfEmit(u, ClearCard);
    if id in v.sales {
      CausedSame(s, e, v, v.(sales := v.sales - {id}));
      CausedEmit(s, e, v.(sales := v.sales - {id}), SaleDropped(id));
    }
  }

  lemma FieldsOfEmit(s: State, o: Output)
    ensures Emit(s, o) == s.(trace := s.trace + [o])
  {
  }

  lemma FailureCauses(s: State, e: Event)
    requires PaymentLost(s, e)
    ensures Cause(s, e, Close(s.current)) && Cause(s, e, ClearCard)
    ensures (e.PaymentAnswer? ==> LostOrder(e) in s.sales) ==> Cause(s, e, SaleDropped(LostOrder(e)))
  {
  }

  lemma CausedPayment(s: State, e: Event, t: State, id: OrderId)
    requires AddsCaused(s, e, t) && e.StatusPoll? && t.current == s.current
    requires e.polled.Some? && id == e.polled.value.id
    requires id != "" && id !in t.paid ==> PaymentDue(s, e, id)
    ensures AddsCaused(s, e, CreatePayment(t, id, e.paymentRefused))
  {
    hide AddsCaused, FailPayment, Emit;
    if id != "" && id !in t.paid {
      var u := Emit(t, PayTransaction(id));
      CausedEmit(s, e, t, PayTransaction(id));
      FieldsOfEmit(t, PayTransaction(id));
      if e.paymentRefused {
        CausedFailure(s, e, u, id);
      }
      var v := if e.paymentRefused then FailPayment(u, id) else u;
      CausedSame(s, e, v, CreatePayment(t, id, e.paymentRefused));
    }
  }

  lemma ConfirmationDue(s: State, e: Event, p: PolledOrder)
    requires e.StatusPoll? && e.polled == Some(p) && e.dispenser in s.dispensers
    requires p.status == Interrupted || p.status == Delivered
    requires e.dispenser in s.orders || e.nozzle.Some?
    ensures p.id == OrderOf(s, e.dispenser).id && !OrderOf(s, e.dispenser).finalized ==>
              Cause(s, e, PayConfirm(p.id, p.status == Interrupted, e.dispenser))
    ensures p.id == OrderOf(s, e.dispenser).id && !OrderOf(s, e.dispenser).finalized && p.status == Interrupted &&
            Told(e.nozzle, OrderOf(s, e.dispenser).product) in s.products ==>
              Cause(s, e, PrintRefund(p.id))
  {
  }

  lemma PolledCauses(s: State, e: Event)
    ensures OwnOrderSeen(s, e) ==> Cause(s, e, OrderPolled(e.dispenser))
    ensures StrangerSeen(s, e) ==> Cause(s, e, Close(e.dispenser))
  {
  }

  lemma CausedPollOrder(s: State, e: Event, t: State)
    requires e.StatusPoll? && e.polled.Some? && e.dispenser in s.dispensers && e.dispenser in t.dispensers
    requires AddsCaused(s, e, t) && t.paid == s.paid && t.sales == s.sales
    requires t.current == s.current && t.products == s.products
    requires e.dispenser in t.orders <==> e.dispenser in s.orders || e.nozzle.Some?
    requires (OrderOf(t, e.dispenser).id, OrderOf(t, e.dispenser).finalized, OrderOf(t, e.dispenser).closed) ==
             (OrderOf(s, e.dispenser).id, OrderOf(s, e.dispenser).finalized, OrderOf(s, e.dispenser).closed)
    requires t.tankers == s.tankers
    requires OrderOf(t, e.dispenser).product == Told(e.nozzle, OrderOf(s, e.dispenser).product)
    ensures AddsCaused(s, e, PollOrder(t, e.dispenser, e.polled.value, e.paymentRefused))
  {
    hide AddsCaused, Finalize, OpenSale, CreatePayment, Cause, GaugeFor;
    PolledCauses(s, e);
    var d, p := e.dispenser, e.polled.value;
    if d !in t.orders || t.orders[d].id != p.id {
      CausedEmit(s, e, t, Close(d));
    } else {
      var n := NotePolled(t, d, p.id);
      var u := SetOrder(n, d, t.orders[d].(status := p.status));
      var stored := SetDispenser(t, d, t.dispensers[d].(orderId := p.id));
      CausedSame(s, e, t, stored);
      CausedEmit(s, e, stored, OrderPolled(d));
      CausedSame(s, e, n, u);
      var v := if p.status == Interrupted || p.status == Delivered then Finalize(u, d) else u;
      if p.status == Interrupted || p.status == Delivered {
        ConfirmationDue(s, e, p);
        CausedFinalize(s, e, u, d);
      }
      FinalizeFrame(u, d);
      OpeningIsCaused(s, e, p.id);
      CausedOpen(s, e, v, p.id);
      OpenFrame(v, p.id);
      CausedPayment(s, e, OpenSale(v, p.id), p.id);
    }
  }

  lemma OpenFrame(s: State, id: OrderId)
    ensures OpenSale(s, id).paid == s.paid && OpenSale(s, id).current == s.current && s.trace <= OpenSale(s, id).trace
    ensures id !in s.sales ==> Issued(s, OpenSale(s, id), SaleOpened(id))
  {
    assert id !in s.sales ==> OpenSale(s, id).trace[|s.trace|] == SaleOpened(id);
  }

  lemma StoreFrame(s: State, d: DispenserId, status: DispenserStatus, nozzle: Option<ProductId>)
    requires d in s.dispensers
    ensures var t := StorePoll(s, d, status, nozzle);
            && (t.trace, t.paid, t.sales, t.tankers) == (s.trace, s.paid, s.sales, s.tankers)
            && (t.current, t.products) == (s.current, s.products)
            && (d in t.orders <==> d in s.orders || nozzle.Some?)
            && (OrderOf(t, d).id, OrderOf(t, d).finalized, OrderOf(t, d).closed) ==
               (OrderOf(s, d).id, OrderOf(s, d).finalized, OrderOf(s, d).closed)
            && OrderOf(t, d).product == Told(nozzle, OrderOf(s, d).product)
  {
  }

  lemma CausedPoll(s: State, e: Event)
    requires e.StatusPoll?
    ensures AddsCaused(s, e, Step(s, e))
  {
    hide AddsCaused, PollOrder, StorePoll, Cause;
    var d := e.dispenser;
    CausedStart(s, e);
    if d in s.dispensers {
      StoreFrame(s, d, e.status, e.nozzle);
      CausedSame(s, e, s, StorePoll(s, d, e.status, e.nozzle));
      if e.polled.Some? {
        CausedPollOrder(s, e, StorePoll(s, d, e.status, e.nozzle));
      }
    }
  }

  lemma CausedAuthorize(s: State, e: Event, t: State)
    requires AddsCaused(s, e, t)
    requires t.serverReady && t.touched ==> Cause(s, e, Authorize(t.current))
    ensures AddsCaused(s, e, AuthorizeOnServer(t))
  {
    if t.serverReady && t.touched {
      var u := t.(serverReady := false, touched := false);
      CausedSame(s, e, t, u);
      CausedEmit(s, e, u, Authorize(t.current));
    }
    hide AddsCaused;
  }

  lemma TouchAuthorizes(s: State, e: Event)
    requires e.BeginTouch?
    ensures Cause(s, e, BeginTouched) && (s.serverReady ==> Cause(s, e, Authorize(s.current)))
    ensures Cancellable(s) ==> Cause(s, e, PrintDebit(s.orders[s.current].id))
  {
  }

  lemma AuthorizeFrame(s: State)
    ensures var t := AuthorizeOnServer(s);
            (t.current, t.orders, t.products, t.sales) == (s.current, s.orders, s.products, s.sales)
  {
  }

  lemma CausedTouch(s: State, e: Event)
    requires e.BeginTouch?
    ensures AddsCaused(s, e, TouchBegin(s))
  {
    hide AddsCaused, OpenSale, AuthorizeOnServer, Cause;
    CausedStart(s, e);
    CausedSame(s, e, s, s.(touched := true));
    TouchAuthorizes(s, e);
    CausedEmit(s, e, s.(touched := true), BeginTouched);
    var t := Emit(s.(touched := true), BeginTouched);
    CausedAuthorize(s, e, t);
    AuthorizeFrame(t);
    var u := AuthorizeOnServer(t);
    if u.current != "" && u.current in u.orders && u.orders[u.current].product in u.products {
      var id := u.orders[u.current].id;
      OpeningIsCaused(s, e, id);
      CausedOpen(s, e, u, id);
      CausedEmit(s, e, OpenSale(u, id), PrintDebit(id));
    }
  }

  lemma CreationCauses(s: State, e: Event)
    requires CreationSeen(s, e)
    ensures Cause(s, e, OrderCreated(e.dispenser, e.created.value))
    ensures e.dispenser != "" ==> Cause(s, e, GetStatus(e.dispenser))
    ensures s.touched ==> Cause(s, e, Authorize(s.current))
  {
  }

  lemma CausedCreate(s: State, e: Event, t: State)
    requires CreationSeen(s, e) && AddsCaused(s, e, t) && (t.touched, t.current) == (s.touched, s.current)
    ensures AddsCaused(s, e, CreateOrder(t, e.dispenser, e.created.value))
  {
    hide AddsCaused, AuthorizeOnServer, AskStatus, Cause;
    CreationCauses(s, e);
    var d, id := e.dispenser, e.created.value;
    var u := Emit(t.(serverReady := true), OrderCreated(d, id));
    CausedSame(s, e, t, t.(serverReady := true));
    CausedEmit(s, e, t.(serverReady := true), OrderCreated(d, id));
    CausedAuthorize(s, e, u);
    var v := SetOrder(AuthorizeOnServer(u), d, NO_ORDER.(id := id));
    CausedSame(s, e, AuthorizeOnServer(u), v);
    CausedAsk(s, e, v, d);
  }

  /** Neither flags nor settings nor the choice of a dispenser changed. */
  predicate Undirected(s: State, t: State) {
    && (t.touched, t.serverReady, t.current) == (s.touched, s.serverReady, s.current)
    && (t.tankers, t.products) == (s.tankers, s.products)
  }

  lemma ChangeOrderFrame(s: State, d: DispenserId, c: OrderChange)
    ensures var t := ChangeOrder(s, d, c);
            Undirected(s, t)
  {
    hide AskStatus, OpenSale, Push, GaugeFor;
    var order := OrderOf(s, d);
    var t := SetOrder(s, d, if c.status.Some? then order.(status := c.status.value) else order);
    FrameOfPieces(t, d, order.id);
    PushFrame(OpenSale(t, order.id), GaugeFor(t.tankers, order.product), Task(order.id, d, BeforeFuelling));
  }

  lemma FrameOfPieces(s: State, d: DispenserId, id: OrderId)
    ensures var t := AskStatus(s, d);
            Undirected(s, t)
    ensures var t := OpenSale(s, id);
            Undirected(s, t)
  {
  }

  lemma PushFrame(s: State, g: GaugeId, task: Task)
    ensures var t := Push(s, g, task, AtAuthorization);
            Undirected(s, t)
  {
    hide Queue;
  }

  lemma ChangeOrderDispensers(s: State, d: DispenserId, c: OrderChange)
    ensures var t := ChangeOrder(s, d, c);
            && t.dispensers == s.dispensers && t.tankers == s.tankers
            && (OrderOf(t, d).id, OrderOf(t, d).finalized) == (OrderOf(s, d).id, OrderOf(s, d).finalized)
  {
    hide AskStatus, OpenSale, Push, GaugeFor;
    var order := OrderOf(s, d);
    var t := SetOrder(s, d, if c.status.Some? then order.(status := c.status.value) else order);
    DispensersOfPieces(t, d, order.id);
    var g, task := GaugeFor(t.tankers, order.product), Task(order.id, d, BeforeFuelling);
    DispensersOfPush(OpenSale(t, order.id), g, task, AtAuthorization);
  }

  lemma DispensersOfPieces(s: State, d: DispenserId, id: OrderId)
    ensures AskStatus(s, d).dispensers == s.dispensers && OpenSale(s, id).dispensers == s.dispensers
    ensures AskStatus(s, d).tankers == s.tankers && OpenSale(s, id).tankers == s.tankers
    ensures AskStatus(s, d).orders == s.orders && OpenSale(s, id).orders == s.orders
  {
  }

  lemma DispensersOfPush(s: State, g: GaugeId, task: Task, origin: Origin)
    ensures Push(s, g, task, origin).dispensers == s.dispensers && Push(s, g, task, origin).tankers == s.tankers
    ensures Push(s, g, task, origin).orders == s.orders
  {
    hide Queue;
  }

  lemma CausedReturn(s: State, e: Event, t: State, d: DispenserId, now: Dispenser)
    requires AddsCaused(s, e, t) && Cause(s, e, PistolReturned(d)) && Cause(s, e, Close(d))
    requires OrderOf(t, d).finalized ==>
               TaskDue(s, e, GaugeFor(t.tankers, now.product), Task(now.orderId, d, AfterFuelling), AtClosing)
    ensures AddsCaused(s, e, ReturnPistol(t, d, now))
  {
    hide AddsCaused, Cause, TaskDue, Push, GaugeFor;
    var u := Emit(t, Close(d));
    CausedEmit(s, e, t, Close(d));
    CausedEmit(s, e, u, PistolReturned(d));
    var v := MarkReturned(u, d);
    CausedSame(s, e, Emit(u, PistolReturned(d)), v);
    var g, task := GaugeFor(v.tankers, now.product), Task(now.orderId, d, AfterFuelling);
    if OrderOf(t, d).finalized {
      CausedPush(s, e, v, g, task, AtClosing);
    }
  }

  lemma ReturnIsCaused(s: State, e: Event)
    requires e.DeviceEvent? && e.statusChange.Some? && e.statusChange.value.status == Idle
    requires e.dispenser in s.dispensers
    requires s.dispensers[e.dispenser].status == Complete || s.dispensers[e.dispenser].status == Fuelling
    ensures Cause(s, e, PistolReturned(e.dispenser)) && Cause(s, e, Close(e.dispenser))
  {
  }

  lemma CausedRandomStatus(s: State, e: Event, t: State)
    requires e.DeviceEvent? && e.statusChange.Some? && AddsCaused(s, e, t)
    requires t.dispensers == s.dispensers && t.tankers == s.tankers
    requires OrderOf(t, e.dispenser).finalized == OrderOf(s, e.dispenser).finalized
    ensures AddsCaused(s, e, RandomStatus(t, e.dispenser, e.statusChange.value))
  {
    hide AddsCaused, Cause, ReturnPistol, GaugeFor;
    var d, c := e.dispenser, e.statusChange.value;
    if d in t.dispensers {
      var was := t.dispensers[d];
      var now := Dispenser(c.status, was.status, if c.nozzle.Some? then c.nozzle.value else was.product, was.orderId);
      var u := SetDispenser(t, d, now);
      CausedSame(s, e, t, u);
      if c.status == Idle && (was.status == Complete || was.status == Fuelling) {
        ReturnIsCaused(s, e);
        CausedReturn(s, e, u, d, now);
      }
    }
  }

  lemma StatusStored(s: State, d: DispenserId, c: StatusChange)
    requires d in s.dispensers
    ensures var t := RandomStatus(s, d, c);
            t.dispensers.Keys == s.dispensers.Keys && t.dispensers[d].status == c.status &&
            forall x <- s.dispensers :: x != d ==> t.dispensers[x] == s.dispensers[x]
  {
    hide ReturnPistol;
    var was := s.dispensers[d];
    var now := Dispenser(c.status, was.status, if c.nozzle.Some? then c.nozzle.value else was.product, was.orderId);
    PrimeRuns.ReturnFrame(SetDispenser(s, d, now), d, now);
  }

  /** One status event goes through both handlers.  The second finds the status already stored, so all it ever does is
      to store it as the previous one, too: it sends nothing, queues nothing and never leaves the dispenser; its
      branches for a finished fuelling are never taken. */
  lemma SecondHandlerOnlyShiftsStatus(s: State, d: DispenserId, c: StatusChange)
    ensures var t := RandomStatus(s, d, c);
            SelectedStatus(t, d, c) ==
            if d !in s.dispensers then t
            else
              var stored := t.dispensers[d];
              var product := if c.nozzle.Some? then c.nozzle.value else stored.product;
              SetDispenser(t, d, stored.(prev := c.status, product := product))
  {
    hide RandomStatus, ReturnPistol;
    if d in s.dispensers {
      StatusStored(s, d, c);
    } else {
      UnknownStays(s, d, c);
    }
  }

  lemma UnknownStays(s: State, d: DispenserId, c: StatusChange)
    requires d !in s.dispensers
    ensures RandomStatus(s, d, c) == s
  {
  }

  lemma CausedDeviceEvent(s: State, e: Event)
    requires e.DeviceEvent?
    ensures AddsCaused(s, e, ProcessDeviceEvent(s, e))
  {
    hide AddsCaused, Cause, ChangeOrder, RandomStatus, SelectedStatus, CreateOrder;
    var d := e.dispenser;
    CausedStart(s, e);
    var t := s;
    if e.orderChange.Some? {
      CausedChangeOrder(s, e);
      ChangeOrderFrame(s, d, e.orderChange.value);
      ChangeOrderDispensers(s, d, e.orderChange.value);
      t := ChangeOrder(s, d, e.orderChange.value);
    }
    if e.statusChange.Some? {
      var u := RandomStatus(t, d, e.statusChange.value);
      CausedRandomStatus(s, e, t);
      SecondHandlerOnlyShiftsStatus(t, d, e.statusChange.value);
      CausedSame(s, e, u, SelectedStatus(u, d, e.statusChange.value));
    } else if d == t.current && !e.displayChange && e.created.Some? {
      CausedCreate(s, e, t);
    }
  }

  lemma CausedGaugeAnswer(s: State, e: Event)
    requires e.GaugeAnswer?
    ensures AddsCaused(s, e, AnswerGauge(s, e.gauge))
  {
    hide AddsCaused, Emit, Cause;
    CausedStart(s, e);
    if Queue(s, e.gauge) != [] {
      var task, rest := Queue(s, e.gauge)[0], Queue(s, e.gauge)[1..];
      var t := s.(queues := s.queues[e.gauge := rest]);
      CausedSame(s, e, s, t);
      ServingIsCaused(s, e);
      CausedEmit(s, e, t, TaskPopped(e.gauge, task));
      var u := Emit(t, TaskPopped(e.gauge, task));
      EmitKeeps(t, TaskPopped(e.gauge, task));
      if task.kind == BeforeFuelling {
        CausedSame(s, e, u, u.(queues := u.queues - {e.gauge}));
      } else if task.order in s.sales {
        CausedEmit(s, e, u, ReportSale(task.order, s.sales[task.order]));
        var v := Emit(u, ReportSale(task.order, s.sales[task.order]));
        var w := v.(sales := v.sales - {task.order}, queues := v.queues - {e.gauge});
        CausedSame(s, e, v, w);
        CausedEmit(s, e, w, TasksDiscarded(e.gauge, rest));
      }
    }
  }

  lemma EmitKeeps(s: State, o: Output)
    ensures Emit(s, o).sales == s.sales
  {
  }

  lemma ServingIsCaused(s: State, e: Event)
    requires e.GaugeAnswer? && Queue(s, e.gauge) != []
    ensures var task, rest := Queue(s, e.gauge)[0], Queue(s, e.gauge)[1..];
            && Cause(s, e, TaskPopped(e.gauge, task))
            && (task.kind == AfterFuelling && task.order in s.sales ==>
                  && Cause(s, e, ReportSale(task.order, s.sales[task.order]))
                  && Cause(s, e, TasksDiscarded(e.gauge, rest)))
  {
  }

  lemma CausedPaymentAnswer(s: State, e: Event)
    requires e.PaymentAnswer?
    ensures AddsCaused(s, e, AnswerPayment(s, e.order, e.result))
  {
    hide AddsCaused, FailPayment, Cause;
    CausedStart(s, e);
    if e.result == NoMoney || e.result == OtherFailure {
      CausedFailure(s, e, s, e.order);
    }
  }

  lemma ButtonCauses(s: State, e: Event)
    ensures e.NewOrderTouch? || e.CancelPinTouch? ==> Cause(s, e, ClearCard)
    ensures e.CloseTouch? || e.CancelPinTouch? ==> Cause(s, e, Close(s.current))
    ensures e.CloseTouch? && s.current != "" ==> Cause(s, e, GetStatus(s.current))
  {
  }

  lemma CausedButtons(s: State, e: Event)
    requires e.NewOrderTouch? || e.CloseTouch? || e.CancelPinTouch? || e.ChooseDispenser?
    ensures AddsCaused(s, e, Step(s, e))
  {
    hide AddsCaused, Cause, AskStatus;
    CausedStart(s, e);
    ButtonCauses(s, e);
    match e
    case NewOrderTouch =>
      CausedEmit(s, e, s, ClearCard);
      CausedSame(s, e, Emit(s, ClearCard), Step(s, e));
    case CloseTouch =>
      CausedEmit(s, e, s, Close(s.current));
      CausedAsk(s, e, Emit(s, Close(s.current)), s.current);
    case CancelPinTouch =>
      CausedEmit(s, e, s, Close(s.current));
      CausedEmit(s, e, Emit(s, Close(s.current)), ClearCard);
    case ChooseDispenser(_, _) => CausedSame(s, e, s, Step(s, e));
  }

  /** Every step issues its commands and marks only for their causes. */
  lemma EveryOutputIsCaused(s: State, e: Event)
    ensures AddsCaused(s, e, Step(s, e))
  {
    hide AddsCaused, TouchBegin, CancelTransaction, ProcessDeviceEvent, PollStatus, AnswerGauge;
    hide AnswerPayment, Reload, Cause;
    CausedStart(s, e);
    match e
    case BeginTouch => CausedTouch(s, e);
    case CancelTouch => CausedCancel(s, e);
    case LoadDevices(_) => CausedReload(s, e);
    case DeviceEvent(_, _, _, _, _) => CausedDeviceEvent(s, e);
    case StatusPoll(_, _, _, _, _) => CausedPoll(s, e);
    case GaugeAnswer(_) => CausedGaugeAnswer(s, e);
    case PaymentAnswer(_, _) => CausedPaymentAnswer(s, e);
    case LoadTankers(_) => CausedSame(s, e, s, Step(s, e));
    case LoadProducts(_) => CausedSame(s, e, s, Step(s, e));
    case LeaveDispenser => CausedSame(s, e, s, Step(s, e));
    case _ => CausedButtons(s, e);
  }

  /** For every command and mark of a run there is the step that issued it and its cause in the state before: in
      particular a confirmation says "not complete" exactly for an order that
      the poll showed as interrupted, and a report is of a pending sale at the head of the answered gauge's queue. */
  lemma {:induction false} CauseInRun(events: seq<Event>, i: nat) returns (k: nat)
    requires i < |After(events).trace|
    ensures k < |events| && Cause(After(events[..k]), events[k], After(events).trace[i])
    ensures After(events[..k]).trace <= After(events).trace && |After(events[..k]).trace| <= i
  {
    hide Step, Cause;
    var n := |events| - 1;
    var s := After(events[..n]);
    EveryOutputIsCaused(s, events[n]);
    if i < |s.trace| {
      k := CauseInRun(events[..n], i);
      assert events[..n][..k] == events[..k];
    } else {
      k := n;
    }
  }

  // --------------------------------------------- and every cause has its effect

  /** Between the histories of `s` and `t` the output was issued, and nothing of the past was lost. */
  predicate Issued(s: State, t: State, o: Output) {
    s.trace <= t.trace && exists i :: |s.trace| <= i < |t.trace| && t.trace[i] == o
  }

  lemma IssuedLast(s: State, t: State, o: Output)
    requires s.trace <= t.trace
    ensures Issued(s, Emit(t, o), o)
  {
    assert Emit(t, o).trace[|t.trace|] == o;
  }

  lemma IssuedBetween(s: State, t: State, u: State, v: State, o: Output)
    requires s.trace <= t.trace && Issued(t, u, o) && u.trace <= v.trace
    ensures Issued(s, v, o)
  {
    var i :| |t.trace| <= i < |u.trace| && u.trace[i] == o;
    assert v.trace[i] == o;
  }

  lemma AskIssues(s: State, d: DispenserId)
    ensures s.trace <= AskStatus(s, d).trace
    ensures d != "" ==> Issued(s, AskStatus(s, d), GetStatus(d))
  {
    hide Issued;
    IssuedLast(s, s, GetStatus(d));
  }

  lemma SettleIssues(s: State, order: Order)
    ensures s.trace <= SettleSale(s, order).trace
    ensures order.status == Interrupted && order.product in s.products ==>
              Issued(s, SettleSale(s, order), PrintRefund(order.id))
  {
    hide Issued, SetSaleType;
    var u := SetSaleType(s, order.id, Full);
    TraceOfSaleType(s, order.id, Full);
    TraceOfSaleType(u, order.id, Partial);
    ProductsOfSaleType(s, order.id);
    IssuedLast(s, SetSaleType(u, order.id, Partial), PrintRefund(order.id));
  }

  lemma FinalizeIssues(s: State, d: DispenserId)
    requires d in s.orders && !s.orders[d].finalized
    ensures var t, order := Finalize(s, d), s.orders[d];
            var g, task := GaugeFor(s.tankers, order.product), Task(order.id, d, AfterFuelling);
            && Issued(s, t, PayConfirm(order.id, order.status == Interrupted, d))
            && (order.closed ==> Issued(s, t, TaskPushed(g, task, AtFinalization)) && Issued(s, t, GetParameters(g)))
            && (order.status == Interrupted && order.product in s.products ==> Issued(s, t, PrintRefund(order.id)))
  {
    hide SettleSale, Push, Issued, GaugeFor;
    var order, t := s.orders[d], Finalize(s, d);
    var u := SettleSale(s, order);
    SettleFrame(s, order);
    SettleIssues(s, order);
    var v := SetOrder(u, d, order.(finalized := true));
    var g, task := GaugeFor(v.tankers, order.product), Task(order.id, d, AfterFuelling);
    PushExtends(v, g, task, AtFinalization);
    PushIssues(v, g, task, AtFinalization);
    var w := if order.closed then Push(v, g, task, AtFinalization) else v;
    IssuedLast(s, w, PayConfirm(order.id, order.status == Interrupted, d));
    if order.closed {
      IssuedBetween(s, v, w, t, TaskPushed(g, task, AtFinalization));
      IssuedBetween(s, v, w, t, GetParameters(g));
    }
    if order.status == Interrupted && order.product in s.products {
      IssuedBetween(s, s, u, t, PrintRefund(order.id));
    }
  }

  lemma FinalizeExtends(s: State, d: DispenserId)
    ensures s.trace <= Finalize(s, d).trace
  {
    hide SettleSale, Push, GaugeFor;
    var order := OrderOf(s, d);
    SettleIssues(s, order);
    var v := SetOrder(SettleSale(s, order), d, order.(finalized := true));
    SettleFrame(s, order);
    PushExtends(v, GaugeFor(v.tankers, order.product), Task(order.id, d, AfterFuelling), AtFinalization);
  }

  lemma FailureIssues(s: State, id: OrderId)
    ensures var t := FailPayment(s, id);
            && s.trace <= t.trace && Issued(s, t, Close(s.current)) && Issued(s, t, ClearCard)
            && (id in s.sales ==> Issued(s, t, SaleDropped(id)))
  {
    hide Issued;
    var t := Emit(s, Close(s.current));
    var u := Emit(t, ClearCard);
    IssuedLast(s, s, Close(s.current));
    IssuedLast(s, t, ClearCard);
    IssuedLast(s, u.(sales := u.sales - {id}), SaleDropped(id));
    IssuedBetween(s, s, t, FailPayment(s, id), Close(s.current));
    IssuedBetween(s, s, u, FailPayment(s, id), ClearCard);
  }

  lemma PaymentIssues(s: State, id: OrderId, refused: bool)
    ensures s.trace <= CreatePayment(s, id, refused).trace
    ensures var t := CreatePayment(s, id, refused);
            id != "" && id !in s.paid ==>
              && Issued(s, t, PayTransaction(id))
              && (refused ==> Issued(s, t, Close(s.current)) && Issued(s, t, ClearCard))
              && (refused && id in s.sales ==> Issued(s, t, SaleDropped(id)))
  {
    hide Issued, FailPayment;
    if id != "" && id !in s.paid {
      var t, all := Emit(s, PayTransaction(id)), CreatePayment(s, id, refused);
      IssuedLast(s, s, PayTransaction(id));
      FailureIssues(t, id);
      IssuedBetween(s, s, t, all, PayTransaction(id));
      if refused {
        IssuedBetween(s, t, FailPayment(t, id), all, Close(s.current));
        IssuedBetween(s, t, FailPayment(t, id), all, ClearCard);
      }
      if refused && id in s.sales {
        IssuedBetween(s, t, FailPayment(t, id), all, SaleDropped(id));
      }
    }
  }

  lemma OpenIsOpen(s: State, id: OrderId)
    ensures id in OpenSale(s, id).sales
  {
  }

  /** What a poll of the dispenser's own order issues when it shows the order ended for the first time. */
  predicate EndIssued(s: State, t: State, d: DispenserId, order: Order) {
    var g, task := GaugeFor(s.tankers, order.product), Task(order.id, d, AfterFuelling);
    && Issued(s, t, PayConfirm(order.id, order.status == Interrupted, d))
    && (order.closed ==> Issued(s, t, TaskPushed(g, task, AtFinalization)) && Issued(s, t, GetParameters(g)))
    && (order.status == Interrupted && order.product in s.products ==> Issued(s, t, PrintRefund(order.id)))
  }

  lemma EndIssuedBetween(s: State, u: State, v: State, t: State, d: DispenserId, order: Order)
    requires s.trace <= u.trace && v.trace <= t.trace && EndIssued(u, v, d, order)
    requires (u.tankers, u.products) == (s.tankers, s.products)
    ensures EndIssued(s, t, d, order)
  {
    hide Issued, GaugeFor;
    var g, task := GaugeFor(s.tankers, order.product), Task(order.id, d, AfterFuelling);
    IssuedBetween(s, u, v, t, PayConfirm(order.id, order.status == Interrupted, d));
    if order.closed {
      IssuedBetween(s, u, v, t, TaskPushed(g, task, AtFinalization));
      IssuedBetween(s, u, v, t, GetParameters(g));
    }
    if order.status == Interrupted && order.product in s.products {
      IssuedBetween(s, u, v, t, PrintRefund(order.id));
    }
  }

  /** What it issues for the order's sale and payment. */
  predicate PayIssued(s: State, t: State, id: OrderId, refused: bool) {
    && (id !in s.sales ==> Issued(s, t, SaleOpened(id)))
    && (id != "" && id !in s.paid ==>
          && Issued(s, t, PayTransaction(id))
          && (refused ==> Issued(s, t, Close(s.current)) && Issued(s, t, ClearCard) && Issued(s, t, SaleDropped(id))))
  }

  lemma SaleAndPaymentIssue(s: State, id: OrderId, refused: bool)
    ensures PayIssued(s, CreatePayment(OpenSale(s, id), id, refused), id, refused)
    ensures s.trace <= CreatePayment(OpenSale(s, id), id, refused).trace
  {
    hide Issued, OpenSale, CreatePayment;
    var w := OpenSale(s, id);
    var t := CreatePayment(w, id, refused);
    OpenFrame(s, id);
    OpenIsOpen(s, id);
    PaymentIssues(w, id, refused);
    if id !in s.sales {
      IssuedBetween(s, s, w, t, SaleOpened(id));
    }
    if id != "" && id !in s.paid {
      IssuedBetween(s, w, t, t, PayTransaction(id));
      if refused {
        IssuedBetween(s, w, t, t, Close(s.current));
        IssuedBetween(s, w, t, t, ClearCard);
        IssuedBetween(s, w, t, t, SaleDropped(id));
      }
    }
  }

  lemma PayIssuedFrom(s: State, v: State, t: State, id: OrderId, refused: bool)
    requires s.trace <= v.trace && v.trace <= t.trace && PayIssued(v, t, id, refused)
    requires v.sales.Keys == s.sales.Keys && v.paid == s.paid && v.current == s.current
    ensures PayIssued(s, t, id, refused)
  {
    hide Issued;
    if id !in s.sales {
      IssuedBetween(s, v, t, t, SaleOpened(id));
    }
    if id != "" && id !in s.paid {
      IssuedBetween(s, v, t, t, PayTransaction(id));
      if refused {
        IssuedBetween(s, v, t, t, Close(s.current));
        IssuedBetween(s, v, t, t, ClearCard);
        IssuedBetween(s, v, t, t, SaleDropped(id));
      }
    }
  }

  lemma FieldsOfPolled(s: State, d: DispenserId, id: OrderId)
    requires d in s.dispensers
    ensures var t := NotePolled(s, d, id);
            && Issued(s, t, OrderPolled(d)) && (t.tankers, t.products, t.paid) == (s.tankers, s.products, s.paid)
            && (t.sales, t.current, t.orders) == (s.sales, s.current, s.orders)
  {
    IssuedLast(s, SetDispenser(s, d, s.dispensers[d].(orderId := id)), OrderPolled(d));
    hide Issued;
  }

  lemma PollOrderIssues(s: State, d: DispenserId, p: PolledOrder, refused: bool)
    requires d in s.dispensers && d in s.orders && s.orders[d].id == p.id
    ensures var t := PollOrder(s, d, p, refused);
            && Issued(s, t, OrderPolled(d)) && PayIssued(s, t, p.id, refused)
            && ((p.status == Interrupted || p.status == Delivered) && !s.orders[d].finalized ==>
                  EndIssued(s, t, d, s.orders[d].(status := p.status)))
  {
    hide Finalize, OpenSale, CreatePayment, NotePolled, Issued, EndIssued, PayIssued;
    var n := NotePolled(s, d, p.id);
    FieldsOfPolled(s, d, p.id);
    TraceOfIssued(s, n, OrderPolled(d));
    var now := s.orders[d].(status := p.status);
    var u := SetOrder(n, d, now);
    var v := if p.status == Interrupted || p.status == Delivered then Finalize(u, d) else u;
    FinalizeExtends(u, d);
    FinalizeFrame(u, d);
    var t := PollOrder(s, d, p, refused);
    assert t == CreatePayment(OpenSale(v, p.id), p.id, refused);
    SaleAndPaymentIssue(v, p.id, refused);
    PayIssuedFrom(s, v, t, p.id, refused);
    IssuedBetween(s, s, n, t, OrderPolled(d));
    if (p.status == Interrupted || p.status == Delivered) && !s.orders[d].finalized {
      FinalizeIssues(u, d);
      FinalizeEnds(u, d);
      EndIssuedBetween(s, u, v, t, d, now);
    }
  }

  lemma TraceOfIssued(s: State, t: State, o: Output)
    requires Issued(s, t, o)
    ensures s.trace <= t.trace
  {
  }

  lemma FinalizeEnds(s: State, d: DispenserId)
    requires d in s.orders && !s.orders[d].finalized
    ensures EndIssued(s, Finalize(s, d), d, s.orders[d])
  {
    hide Issued, Finalize, GaugeFor;
    FinalizeIssues(s, d);
  }

  lemma PolledHere(s: State, e: Event)
    requires OwnOrderSeen(s, e)
    ensures var d := e.dispenser;
            var t, order := Step(s, e), OrderOf(s, d).(product := Told(e.nozzle, OrderOf(s, d).product));
            && Issued(s, t, OrderPolled(d)) && PayIssued(s, t, e.polled.value.id, e.paymentRefused)
            && (EndSeen(s, e, d) ==> EndIssued(s, t, d, order.(status := e.polled.value.status)))
  {
    hide PollOrder, StorePoll, Issued, EndIssued, PayIssued, GaugeFor;
    var d, p := e.dispenser, e.polled.value;
    var u, t := StorePoll(s, d, e.status, e.nozzle), Step(s, e);
    StoreFrame(s, d, e.status, e.nozzle);
    PollOrderIssues(u, d, p, e.paymentRefused);
    TraceOfIssued(u, t, OrderPolled(d));
    IssuedBetween(s, u, t, t, OrderPolled(d));
    PayIssuedFrom(s, u, t, p.id, e.paymentRefused);
    if EndSeen(s, e, d) {
      assert u.orders[d].(status := p.status) ==
             OrderOf(s, d).(product := Told(e.nozzle, OrderOf(s, d).product), status := p.status);
      EndIssuedBetween(s, u, t, t, d, u.orders[d].(status := p.status));
    }
  }

  lemma StrangerIssues(s: State, e: Event)
    requires StrangerSeen(s, e)
    ensures Issued(s, Step(s, e), Close(e.dispenser))
  {
    hide Issued, StorePoll, Emit, Finalize, OpenSale, CreatePayment;
    var u := StorePoll(s, e.dispenser, e.status, e.nozzle);
    StoreFrame(s, e.dispenser, e.status, e.nozzle);
    IssuedLast(s, u, Close(e.dispenser));
  }

  lemma EndIssues(s: State, e: Event, g: GaugeId, task: Task)
    requires TaskDue(s, e, g, task, AtFinalization)
    ensures Issued(s, Step(s, e), TaskPushed(g, task, AtFinalization)) && Issued(s, Step(s, e), GetParameters(g))
  {
    hide Issued, Step, GaugeFor;
    PolledHere(s, e);
  }

  lemma PollIssues(s: State, e: Event, o: Output)
    requires e.StatusPoll? && Cause(s, e, o) && !o.TaskPushed? && !o.GetParameters?
    ensures Issued(s, Step(s, e), o)
  {
    hide Issued, Step, GaugeFor;
    if StrangerSeen(s, e) {
      StrangerIssues(s, e);
    } else {
      OwnUnlessStranger(s, e, o);
      PolledHere(s, e);
    }
  }

  lemma OwnUnlessStranger(s: State, e: Event, o: Output)
    requires e.StatusPoll? && Cause(s, e, o) && !o.TaskPushed? && !o.GetParameters? && !StrangerSeen(s, e)
    ensures OwnOrderSeen(s, e)
  {
  }

  lemma AuthorizeIssues(s: State)
    requires s.serverReady && s.touched
    ensures Issued(s, AuthorizeOnServer(s), Authorize(s.current))
  {
    hide Issued;
    IssuedLast(s, s.(serverReady := false, touched := false), Authorize(s.current));
  }

  lemma AuthorizeExtends(s: State)
    ensures s.trace <= AuthorizeOnServer(s).trace
  {
  }

  lemma TouchIssues(s: State)
    ensures var t := TouchBegin(s);
            && Issued(s, t, BeginTouched) && (s.serverReady ==> Issued(s, t, Authorize(s.current)))
            && (Cancellable(s) ==>
                  var id := s.orders[s.current].id;
                  Issued(s, t, PrintDebit(id)) && (id !in s.sales ==> Issued(s, t, SaleOpened(id))))
  {
    hide Issued, AuthorizeOnServer, OpenSale;
    var all := TouchBegin(s);
    var t := Emit(s.(touched := true), BeginTouched);
    IssuedLast(s, s.(touched := true), BeginTouched);
    var u := AuthorizeOnServer(t);
    AuthorizeFrame(t);
    AuthorizeExtends(t);
    var id := OrderOf(u, u.current).id;
    OpenFrame(u, id);
    IssuedBetween(s, s, t, all, BeginTouched);
    if s.serverReady {
      AuthorizeIssues(t);
      IssuedBetween(s, t, u, all, Authorize(s.current));
    }
    if Cancellable(s) {
      IssuedLast(s, OpenSale(u, id), PrintDebit(id));
      if id !in s.sales {
        IssuedBetween(s, u, OpenSale(u, id), all, SaleOpened(id));
      }
    }
  }

  lemma ChangeAuthorizes(s: State, d: DispenserId)
    ensures var order, t := OrderOf(s, d), ChangeOrder(s, d, OrderChange(Some(OrderAuthorized)));
            var g, task := GaugeFor(s.tankers, order.product), Task(order.id, d, BeforeFuelling);
            && Issued(s, t, TaskPushed(g, task, AtAuthorization)) && Issued(s, t, GetParameters(g))
            && (order.id !in s.sales ==> Issued(s, t, SaleOpened(order.id)))
  {
    hide Issued, Push, OpenSale, GaugeFor;
    var order := OrderOf(s, d);
    var r := SetOrder(s, d, order.(status := OrderAuthorized));
    OpenFrame(r, order.id);
    DispensersOfPieces(r, d, order.id);
    var u, g, task := OpenSale(r, order.id), GaugeFor(r.tankers, order.product), Task(order.id, d, BeforeFuelling);
    var t := Push(u, g, task, AtAuthorization);
    PushIssues(u, g, task, AtAuthorization);
    PushExtends(u, g, task, AtAuthorization);
    IssuedBetween(s, u, t, t, TaskPushed(g, task, AtAuthorization));
    IssuedBetween(s, u, t, t, GetParameters(g));
    if order.id !in s.sales {
      IssuedBetween(s, r, u, t, SaleOpened(order.id));
    }
  }

  lemma ChangeAsksStatus(s: State, d: DispenserId, c: OrderChange)
    requires d != "" && (c.status == Some(Interrupted) || c.status == Some(Delivered))
    ensures Issued(s, ChangeOrder(s, d, c), GetStatus(d))
  {
    hide Issued, AskStatus;
    var t := SetOrder(s, d, OrderOf(s, d).(status := c.status.value));
    AskIssues(t, d);
    IssuedBetween(s, t, AskStatus(t, d), AskStatus(t, d), GetStatus(d));
  }

  /** What follows the order's part of an event only adds to the history. */
  lemma EventExtends(s: State, e: Event)
    requires e.DeviceEvent? && e.orderChange.Some?
    ensures ChangeOrder(s, e.dispenser, e.orderChange.value).trace <= Step(s, e).trace
  {
    hide ChangeOrder, RandomStatus, SelectedStatus, CreateOrder, Cause;
    var d := e.dispenser;
    var t := ChangeOrder(s, d, e.orderChange.value);
    CausedStart(t, e);
    if e.statusChange.Some? {
      CausedRandomStatus(t, e, t);
      SecondHandlerOnlyShiftsStatus(t, d, e.statusChange.value);
    } else if d == t.current && !e.displayChange && e.created.Some? {
      CausedCreate(t, e, t);
    }
  }

  /** What the order's part of an event issues, the event issues. */
  lemma OrderPartIssues(s: State, e: Event, o: Output)
    requires e.DeviceEvent? && e.orderChange.Some?
    requires Issued(s, ChangeOrder(s, e.dispenser, e.orderChange.value), o)
    ensures Issued(s, Step(s, e), o)
  {
    hide Issued, ChangeOrder, Step;
    EventExtends(s, e);
    IssuedBetween(s, s, ChangeOrder(s, e.dispenser, e.orderChange.value), Step(s, e), o);
  }

  lemma CreateIssues(s: State, d: DispenserId, id: OrderId)
    ensures var t := CreateOrder(s, d, id);
            && Issued(s, t, OrderCreated(d, id)) && (d != "" ==> Issued(s, t, GetStatus(d)))
            && (s.touched ==> Issued(s, t, Authorize(s.current)))
  {
    hide Issued, AuthorizeOnServer, AskStatus;
    var all := CreateOrder(s, d, id);
    var t := Emit(s.(serverReady := true), OrderCreated(d, id));
    IssuedLast(s, s.(serverReady := true), OrderCreated(d, id));
    AuthorizeExtends(t);
    var u := SetOrder(AuthorizeOnServer(t), d, NO_ORDER.(id := id));
    AskIssues(u, d);
    IssuedBetween(s, s, t, all, OrderCreated(d, id));
    if d != "" {
      IssuedBetween(s, u, all, all, GetStatus(d));
    }
    if s.touched {
      AuthorizeIssues(t);
      IssuedBetween(s, t, AuthorizeOnServer(t), all, Authorize(s.current));
    }
  }

  lemma CreationIssues(s: State, e: Event)
    requires CreationSeen(s, e)
    ensures var t := Step(s, e);
            && Issued(s, t, OrderCreated(e.dispenser, e.created.value))
            && (e.dispenser != "" ==> Issued(s, t, GetStatus(e.dispenser)))
            && (s.touched ==> Issued(s, t, Authorize(s.current)))
  {
    hide Issued, CreateOrder, ChangeOrder;
    var d, id, all := e.dispenser, e.created.value, Step(s, e);
    var t := if e.orderChange.Some? then ChangeOrder(s, d, e.orderChange.value) else s;
    if e.orderChange.Some? {
      CausedChangeOrder(s, e);
      ChangeOrderFrame(s, d, e.orderChange.value);
    }
    CreateIssues(t, d, id);
    IssuedBetween(s, t, all, all, OrderCreated(d, id));
    if d != "" {
      IssuedBetween(s, t, all, all, GetStatus(d));
    }
    if s.touched {
      IssuedBetween(s, t, all, all, Authorize(s.current));
    }
  }

  /** All a device event issues for a return of the pistol is issued by its first status handler. */
  lemma ReturnIssues(s: State, e: Event, o: Output)
    requires e.DeviceEvent? && e.statusChange.Some?
    requires var t := if e.orderChange.Some? then ChangeOrder(s, e.dispenser, e.orderChange.value) else s;
             Issued(t, RandomStatus(t, e.dispenser, e.statusChange.value), o)
    ensures Issued(s, Step(s, e), o)
  {
    hide Issued, ChangeOrder, RandomStatus, SelectedStatus, Cause;
    var d, c := e.dispenser, e.statusChange.value;
    var t := if e.orderChange.Some? then ChangeOrder(s, d, e.orderChange.value) else s;
    CausedStart(s, e);
    if e.orderChange.Some? {
      CausedChangeOrder(s, e);
    }
    SecondHandlerOnlyShiftsStatus(t, d, c);
    IssuedBetween(s, t, RandomStatus(t, d, c), Step(s, e), o);
  }

  lemma NoticedHere(s: State, d: DispenserId, c: StatusChange)
    requires d in s.dispensers && c.status == Idle
    requires s.dispensers[d].status == Complete || s.dispensers[d].status == Fuelling
    ensures var t := RandomStatus(s, d, c);
            var g := GaugeFor(s.tankers, Told(c.nozzle, s.dispensers[d].product));
            && Issued(s, t, Close(d)) && Issued(s, t, PistolReturned(d))
            && (OrderOf(s, d).finalized ==>
                  && Issued(s, t, TaskPushed(g, Task(s.dispensers[d].orderId, d, AfterFuelling), AtClosing))
                  && Issued(s, t, GetParameters(g)))
  {
    hide Issued, Push, GaugeFor;
    var was, all := s.dispensers[d], RandomStatus(s, d, c);
    var now := Dispenser(c.status, was.status, if c.nozzle.Some? then c.nozzle.value else was.product, was.orderId);
    var r := SetDispenser(s, d, now);
    var t := Emit(r, Close(d));
    IssuedLast(s, r, Close(d));
    IssuedLast(s, t, PistolReturned(d));
    var u := MarkReturned(t, d);
    var g, task := GaugeFor(u.tankers, now.product), Task(now.orderId, d, AfterFuelling);
    PushExtends(u, g, task, AtClosing);
    PushIssues(u, g, task, AtClosing);
    IssuedBetween(s, s, t, all, Close(d));
    IssuedBetween(s, s, Emit(t, PistolReturned(d)), all, PistolReturned(d));
    if OrderOf(s, d).finalized {
      IssuedBetween(s, u, Push(u, g, task, AtClosing), all, TaskPushed(g, task, AtClosing));
      IssuedBetween(s, u, Push(u, g, task, AtClosing), all, GetParameters(g));
    }
  }

  lemma ReturnCauseIssues(s: State, e: Event, d: DispenserId)
    requires ReturnSeen(s, e, d)
    ensures var t := Step(s, e);
            var g := GaugeFor(s.tankers, Told(e.statusChange.value.nozzle, s.dispensers[d].product));
            && Issued(s, t, Close(d)) && Issued(s, t, PistolReturned(d))
            && (OrderOf(s, d).finalized ==>
                  && Issued(s, t, TaskPushed(g, Task(s.dispensers[d].orderId, d, AfterFuelling), AtClosing))
                  && Issued(s, t, GetParameters(g)))
  {
    hide Issued, ChangeOrder, RandomStatus, Step, GaugeFor;
    var t := if e.orderChange.Some? then ChangeOrder(s, d, e.orderChange.value) else s;
    if e.orderChange.Some? {
      ChangeOrderDispensers(s, d, e.orderChange.value);
    }
    NoticedHere(t, d, e.statusChange.value);
    ReturnIssues(s, e, Close(d));
    ReturnIssues(s, e, PistolReturned(d));
    if OrderOf(s, d).finalized {
      var g := GaugeFor(s.tankers, Told(e.statusChange.value.nozzle, s.dispensers[d].product));
      ReturnIssues(s, e, TaskPushed(g, Task(s.dispensers[d].orderId, d, AfterFuelling), AtClosing));
      ReturnIssues(s, e, GetParameters(g));
    }
  }

  lemma AnswerTrace(s: State, e: Event)
    requires e.GaugeAnswer? && Queue(s, e.gauge) != []
    ensures var task, rest := Queue(s, e.gauge)[0], Queue(s, e.gauge)[1..];
            AnswerGauge(s, e.gauge).trace ==
            s.trace + [TaskPopped(e.gauge, task)] +
            if ReportDue(s, e)
            then [ReportSale(task.order, s.sales[task.order])] + [TasksDiscarded(e.gauge, rest)] else []
  {
  }

  lemma GaugeIssues(s: State, e: Event, o: Output)
    requires e.GaugeAnswer? && (o.TaskPopped? || o.ReportSale? || o.TasksDiscarded?) && Cause(s, e, o)
    ensures Issued(s, Step(s, e), o)
  {
    hide AnswerGauge;
    AnswerTrace(s, e);
    var t := AnswerGauge(s, e.gauge);
    assert t.trace[|s.trace| + if o.TaskPopped? then 0 else if o.ReportSale? then 1 else 2] == o;
  }

  lemma {:induction false} RegisterIssues(s: State, ids: seq<DispenserId>, d: DispenserId)
    requires d in ids && d != ""
    ensures Issued(s, Register(s, ids), GetStatus(d))
  {
    hide Issued, AskStatus;
    var last, less := ids[|ids| - 1], ids[..|ids| - 1];
    var t := SetDispenser(Register(s, less), last, NEW_DISPENSER);
    AskIssues(t, last);
    RegisterExtends(s, less);
    if last == d {
      IssuedBetween(s, t, AskStatus(t, d), AskStatus(t, d), GetStatus(d));
    } else {
      assert d in less;
      RegisterIssues(s, less, d);
      IssuedBetween(s, s, Register(s, less), AskStatus(t, last), GetStatus(d));
    }
  }

  lemma {:induction false} RegisterExtends(s: State, ids: seq<DispenserId>)
    ensures s.trace <= Register(s, ids).trace
  {
    hide AskStatus;
    if ids != [] {
      RegisterExtends(s, ids[..|ids| - 1]);
      AskIssues(SetDispenser(Register(s, ids[..|ids| - 1]), ids[|ids| - 1], NEW_DISPENSER), ids[|ids| - 1]);
    }
  }

  lemma LoadIssues(s: State, e: Event)
    requires e.LoadDevices?
    ensures Issued(s, Step(s, e), DevicesLoaded)
    ensures forall d <- e.ids :: d != "" ==> Issued(s, Step(s, e), GetStatus(d))
  {
    hide Issued, Register;
    var t := Emit(s.(dispensers := map[]), DevicesLoaded);
    IssuedLast(s, s.(dispensers := map[]), DevicesLoaded);
    RegisterExtends(t, e.ids);
    IssuedBetween(s, s, t, Step(s, e), DevicesLoaded);
    forall d | d in e.ids && d != "" ensures Issued(s, Step(s, e), GetStatus(d)) {
      RegisterIssues(t, e.ids, d);
      IssuedBetween(s, t, Step(s, e), Step(s, e), GetStatus(d));
    }
  }

  lemma ButtonIssues(s: State, e: Event)
    ensures var t := Step(s, e);
            && (e.CloseTouch? || e.CancelPinTouch? ==> Issued(s, t, Close(s.current)))
            && (e.NewOrderTouch? || e.CancelPinTouch? ==> Issued(s, t, ClearCard))
            && (e.CloseTouch? && s.current != "" ==> Issued(s, t, GetStatus(s.current)))
  {
    hide Issued, AskStatus;
    var t := Emit(s, Close(s.current));
    IssuedLast(s, s, Close(s.current));
    IssuedLast(s, s, ClearCard);
    IssuedLast(s, t, ClearCard);
    AskIssues(t, s.current);
    if e.CloseTouch? {
      IssuedBetween(s, s, t, Step(s, e), Close(s.current));
      if s.current != "" {
        IssuedBetween(s, t, Step(s, e), Step(s, e), GetStatus(s.current));
      }
    }
    if e.CancelPinTouch? {
      IssuedBetween(s, s, t, Step(s, e), Close(s.current));
    }
    if e.NewOrderTouch? {
      IssuedBetween(s, s, Emit(s, ClearCard), Step(s, e), ClearCard);
    }
  }

  lemma TaskIssues(s: State, e: Event, g: GaugeId, task: Task, origin: Origin)
    requires TaskDue(s, e, g, task, origin)
    ensures Issued(s, Step(s, e), TaskPushed(g, task, origin)) && Issued(s, Step(s, e), GetParameters(g))
  {
    hide Issued, ProcessDeviceEvent, PollStatus, CancelTransaction, GaugeFor, ChangeOrder;
    match origin
    case AtAuthorization =>
      ChangeAuthorizes(s, e.dispenser);
      OrderPartIssues(s, e, TaskPushed(g, task, origin));
      OrderPartIssues(s, e, GetParameters(g));
    case AtClosing => ReturnCauseIssues(s, e, task.dispenser);
    case AtFinalization => EndIssues(s, e, g, task);
    case AtCancellation => CancelIssues(s);
  }

  lemma FailureAnswerIssues(s: State, e: Event)
    requires e.PaymentAnswer? && PaymentLost(s, e)
    ensures var t := Step(s, e);
            && Issued(s, t, Close(s.current)) && Issued(s, t, ClearCard)
            && (e.order in s.sales ==> Issued(s, t, SaleDropped(e.order)))
  {
    hide Issued, FailPayment;
    FailureIssues(s, e.order);
  }

  lemma EventIssues(s: State, e: Event, o: Output)
    requires e.DeviceEvent? && Cause(s, e, o) && !o.TaskPushed? && !o.GetParameters?
    ensures Issued(s, Step(s, e), o)
  {
    hide Issued, Step, ChangeOrder, GaugeFor;
    if o.Close? || o.PistolReturned? {
      ReturnCauseIssues(s, e, e.dispenser);
    } else if o.SaleOpened? {
      ChangeAuthorizes(s, e.dispenser);
      OrderPartIssues(s, e, o);
    } else if CreationSeen(s, e) {
      CreationIssues(s, e);
    }
    if o.GetStatus? && !CreationSeen(s, e) {
      ChangeAsksStatus(s, e.dispenser, e.orderChange.value);
      OrderPartIssues(s, e, o);
    }
  }

  /** Every command and every mark is issued by a step if and only if its cause was there before: none without a cause,
      and no cause without its effect. */
  lemma IssuedIffCause(s: State, e: Event, o: Output)
    ensures Issued(s, Step(s, e), o) <==> Cause(s, e, o)
  {
    EveryOutputIsCaused(s, e);
    if Cause(s, e, o) {
      CauseIssues(s, e, o);
    }
    hide Step, Cause;
  }

  lemma CauseIssues(s: State, e: Event, o: Output)
    requires Cause(s, e, o)
    ensures Issued(s, Step(s, e), o)
  {
    hide Issued, Step, GaugeFor, TaskDue;
    if o.TaskPushed? {
      TaskIssues(s, e, o.gauge, o.task, o.origin);
    } else if o.GetParameters? {
      var task, origin :| TaskDue(s, e, o.gauge, task, origin);
      TaskIssues(s, e, o.gauge, task, origin);
    } else {
      match e
      case StatusPoll(_, _, _, _, _) => PollIssues(s, e, o);
      case DeviceEvent(_, _, _, _, _) => EventIssues(s, e, o);
      case GaugeAnswer(_) => GaugeIssues(s, e, o);
      case PaymentAnswer(_, _) => FailureAnswerIssues(s, e);
      case BeginTouch => TouchIssues(s); StepOfTouch(s);
      case CancelTouch => CancelIssues(s); StepOfTouch(s);
      case LoadDevices(_) => LoadIssues(s, e);
      case _ => ButtonIssues(s, e);
    }
  }

  lemma StepOfTouch(s: State)
    ensures Step(s, BeginTouch) == TouchBegin(s) && Step(s, CancelTouch) == CancelTransaction(s)
  {
  }
}
