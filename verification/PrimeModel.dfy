/** The order logic: orders per dispenser, payments, the authorize handshake, the gauge task queues and the
  ledger of pending sales.  Every handler is one step on the state; `trace` is the sequence of commands and
  messages issued, together with history marks that no other layer sees. */
module PrimeModel {
  import opened Basics

  type OrderId = string
  type DispenserId = string
  type GaugeId = string
  type ProductId = string

  datatype DispenserStatus =
    NoStatus | Idle | NozzleUp | DispenserAuthorized | Fuelling | Complete | Halted | Offline | Faulty | Locked

  datatype OrderStatus =
    NoOrderStatus | OrderIdle | Ready | OrderAuthorized | InProgress | Delivered | Interrupted | OrderFailed

  datatype Order = Order(id: OrderId, status: OrderStatus, product: ProductId, closed: bool, finalized: bool)

  /** What `m_orders[...]` creates for a dispenser it does not know. */
  const NO_ORDER := Order("", NoOrderStatus, "", false, false)

  /** `orderId` is the order the controller last reported on the dispenser. */
  datatype Dispenser = Dispenser(status: DispenserStatus, prev: DispenserStatus, product: ProductId, orderId: OrderId)

  /** A dispenser as a device list gives it. */
  const NEW_DISPENSER := Dispenser(Idle, NoStatus, "", "")

  datatype Tanker = Tanker(product: ProductId, gauges: seq<GaugeId>)

  datatype SaleType = Untyped | Full | Partial | Revert

  datatype TaskType = BeforeFuelling | AfterFuelling

  datatype Task = Task(order: OrderId, dispenser: DispenserId, kind: TaskType)

  /** Which code queued a gauge task. */
  datatype Origin = AtAuthorization | AtClosing | AtFinalization | AtCancellation

  datatype Output =
    // commands to the controller and messages to the other layers
    | Close(dispenser: DispenserId)
    | Authorize(dispenser: DispenserId)
    | GetStatus(dispenser: DispenserId)
    | GetParameters(gauge: GaugeId)
    | PayTransaction(order: OrderId)
    | PayConfirm(order: OrderId, notComplete: bool, dispenser: DispenserId)
    | CancelRequest
    | ClearCard
    | PrintDebit(order: OrderId)
    | PrintRefund(order: OrderId)
    | ReportSale(order: OrderId, saleType: SaleType)
    // history marks
    | BeginTouched
    | OrderCreated(dispenser: DispenserId, order: OrderId)
    | PistolReturned(dispenser: DispenserId)
    | OrderPolled(dispenser: DispenserId)
    | DevicesLoaded
    | SaleOpened(order: OrderId)
    | SaleDropped(order: OrderId)
    | TaskPushed(gauge: GaugeId, task: Task, origin: Origin)
    | TaskPopped(gauge: GaugeId, task: Task)
    | TasksDiscarded(gauge: GaugeId, tasks: seq<Task>)

  datatype State = State(
    orders: map<DispenserId, Order>,
    dispensers: map<DispenserId, Dispenser>,
    tankers: seq<Tanker>,
    products: set<ProductId>,
    paid: set<OrderId>,
    serverReady: bool,
    touched: bool,
    sales: map<OrderId, SaleType>,
    queues: map<GaugeId, seq<Task>>,
    current: DispenserId,
    trace: seq<Output>)

  const INITIAL := State(map[], map[], [], {}, {}, false, false, map[], map[], "", [])

  datatype OrderChange = OrderChange(status: Option<OrderStatus>)

  datatype StatusChange = StatusChange(status: DispenserStatus, nozzle: Option<ProductId>)

  /** The order inside a polled dispenser status. */
  datatype PolledOrder = PolledOrder(id: OrderId, status: OrderStatus)

  datatype PaymentResult = Paid | PinMissing | PinWrong | NoMoney | OtherFailure

  datatype Event =
    | LoadDevices(ids: seq<DispenserId>)
    | LoadTankers(tankers: seq<Tanker>)
    | LoadProducts(products: set<ProductId>)
    | ChooseDispenser(dispenser: DispenserId, pricesSet: bool)
    | LeaveDispenser
    | NewOrderTouch
    | BeginTouch
    | CloseTouch
    | CancelTouch
    | CancelPinTouch
    | DeviceEvent(dispenser: DispenserId, orderChange: Option<OrderChange>, statusChange: Option<StatusChange>,
                  displayChange: bool, created: Option<OrderId>)
    | StatusPoll(dispenser: DispenserId, status: DispenserStatus, nozzle: Option<ProductId>,
                 polled: Option<PolledOrder>, paymentRefused: bool)
    | GaugeAnswer(gauge: GaugeId)
    | PaymentAnswer(order: OrderId, result: PaymentResult)

  // ---------------------------------------------------------- state pieces

  function Emit(s: State, o: Output): State {
    s.(trace := s.trace + [o])
  }

  function OrderOf(s: State, d: DispenserId): Order {
    if d in s.orders then s.orders[d] else NO_ORDER
  }

  function SetOrder(s: State, d: DispenserId, order: Order): State {
    s.(orders := s.orders[d := order])
  }

  function SetDispenser(s: State, d: DispenserId, dispenser: Dispenser): State {
    s.(dispensers := s.dispensers[d := dispenser])
  }

  /** The first gauge of the first tanker of a product that has gauges; empty when there is none. */
  function GaugeFor(tankers: seq<Tanker>, product: ProductId): GaugeId {
    if tankers == [] then ""
    else if tankers[0].product == product && tankers[0].gauges != [] then tankers[0].gauges[0]
    else GaugeFor(tankers[1..], product)
  }

  function Queue(s: State, g: GaugeId): seq<Task> {
    if g in s.queues then s.queues[g] else []
  }

  function Queued(s: State, g: GaugeId, task: Task, origin: Origin): State {
    Emit(s.(queues := s.queues[g := Queue(s, g) + [task]]), TaskPushed(g, task, origin))
  }

  /** Queues a gauge task and asks for the gauge's readings. */
  function Push(s: State, g: GaugeId, task: Task, origin: Origin): State {
    Emit(Queued(s, g, task, origin), GetParameters(g))
  }

  function OpenSale(s: State, o: OrderId): State {
    if o in s.sales then s else Emit(s.(sales := s.sales[o := Untyped]), SaleOpened(o))
  }

  function SetSaleType(s: State, o: OrderId, t: SaleType): State {
    if o in s.sales then s.(sales := s.sales[o := t]) else s
  }

  function DropSale(s: State, o: OrderId): State {
    if o in s.sales then Emit(s.(sales := s.sales - {o}), SaleDropped(o)) else s
  }

  function AskStatus(s: State, d: DispenserId): State {
    if d == "" then s else Emit(s, GetStatus(d))
  }

  // -------------------------------------------------------------- handlers

  function AuthorizeOnServer(s: State): State {
    if s.serverReady && s.touched then Emit(s.(serverReady := false, touched := false), Authorize(s.current)) else s
  }

  function PrintDebetReceipt(s: State): State {
    if s.current == "" || s.current !in s.orders || s.orders[s.current].product !in s.products then s
    else Emit(OpenSale(s, s.orders[s.current].id), PrintDebit(s.orders[s.current].id))
  }

  function TouchBegin(s: State): State {
    PrintDebetReceipt(AuthorizeOnServer(Emit(s.(touched := true), BeginTouched)))
  }

  function CreateOrder(s: State, d: DispenserId, o: OrderId): State {
    var t := AuthorizeOnServer(Emit(s.(serverReady := true), OrderCreated(d, o)));
    AskStatus(SetOrder(t, d, NO_ORDER.(id := o)), d)
  }

  /** The status part of a device event, for whichever dispenser. */
  function RandomStatus(s: State, d: DispenserId, c: StatusChange): State {
    if d !in s.dispensers then s
    else
      var was := s.dispensers[d];
      var now := Dispenser(c.status, was.status, if c.nozzle.Some? then c.nozzle.value else was.product, was.orderId);
      var t := SetDispenser(s, d, now);
      if c.status == Idle && (was.status == Complete || was.status == Fuelling) then ReturnPistol(t, d, now) else t
  }

  function MarkReturned(s: State, d: DispenserId): State {
    SetOrder(Emit(s, PistolReturned(d)), d, OrderOf(s, d).(closed := true))
  }

  /** The pistol is back: close the order, and queue its last task when it is already finalized. */
  function ReturnPistol(s: State, d: DispenserId, now: Dispenser): State {
    var t := MarkReturned(Emit(s, Close(d)), d);
    if OrderOf(s, d).finalized
    then Push(t, GaugeFor(t.tankers, now.product), Task(now.orderId, d, AfterFuelling), AtClosing) else t
  }

  /** The same status once more, for the dispenser shown on the display. */
  function SelectedStatus(s: State, d: DispenserId, c: StatusChange): State {
    if d !in s.dispensers then s
    else
      var was := s.dispensers[d];
      var now := Dispenser(c.status, was.status, if c.nozzle.Some? then c.nozzle.value else was.product, was.orderId);
      var t := SetDispenser(s, d, now);
      if c.status != Idle then t
      else
        var u :=
          if was.status == Complete || was.status == Fuelling then Emit(ReturnPistol(t, d, now), ClearCard) else t;
        if was.status == Complete || was.status == Halted then
          SetDispenser(AskStatus(u, d).(current := ""), d, now.(prev := NoStatus))
        else u
  }

  function ChangeOrder(s: State, d: DispenserId, c: OrderChange): State {
    var order := OrderOf(s, d);
    var t := SetOrder(s, d, if c.status.Some? then order.(status := c.status.value) else order);
    if c.status == Some(Interrupted) || c.status == Some(Delivered) then AskStatus(t, d)
    else if c.status == Some(OrderAuthorized) then
      var g := GaugeFor(t.tankers, order.product);
      Push(OpenSale(t, order.id), g, Task(order.id, d, BeforeFuelling), AtAuthorization)
    else t
  }

  function ProcessDeviceEvent(s: State, e: Event): State
    requires e.DeviceEvent?
  {
    var d := e.dispenser;
    var t := if e.orderChange.Some? then ChangeOrder(s, d, e.orderChange.value) else s;
    var u := if e.statusChange.Some? then RandomStatus(t, d, e.statusChange.value) else t;
    if d != u.current then u
    else if e.statusChange.Some? then SelectedStatus(u, d, e.statusChange.value)
    else if e.displayChange then u
    else if e.created.Some? then CreateOrder(u, d, e.created.value)
    else u
  }

  /** The sale of an order that ended: delivered in full, or in part with a refund receipt. */
  function SettleSale(s: State, order: Order): State {
    var t := SetSaleType(s, order.id, Full);
    if order.status == Interrupted && order.product in s.products
    then Emit(SetSaleType(t, order.id, Partial), PrintRefund(order.id)) else t
  }

  /** The order's flag, its last task when the pistol is already back, and the confirmation. */
  function Finish(s: State, d: DispenserId): State {
    var order := OrderOf(s, d);
    var t := SetOrder(s, d, order.(finalized := true));
    var u := if order.closed
             then Push(t, GaugeFor(t.tankers, order.product), Task(order.id, d, AfterFuelling), AtFinalization) else t;
    Emit(u, PayConfirm(order.id, order.status == Interrupted, d))
  }

  function Finalize(s: State, d: DispenserId): State {
    if OrderOf(s, d).finalized then s else Finish(SettleSale(s, OrderOf(s, d)), d)
  }

  /** A payment that ended in failure for good. */
  function FailPayment(s: State, o: OrderId): State {
    DropSale(Emit(Emit(s, Close(s.current)), ClearCard), o)
  }

  /** Pays an order once.  When the terminal refuses the frame, its failure result arrives inside this call. */
  function CreatePayment(s: State, o: OrderId, refused: bool): State {
    if o == "" || o in s.paid then s
    else
      var t := Emit(s, PayTransaction(o));
      var u := if refused then FailPayment(t, o) else t;
      u.(paid := u.paid + {o})
  }

  /** The dispenser's own note of its order, which only a poll that shows this order makes. */
  function NotePolled(s: State, d: DispenserId, id: OrderId): State
    requires d in s.dispensers
  {
    Emit(SetDispenser(s, d, s.dispensers[d].(orderId := id)), OrderPolled(d))
  }

  function PollOrder(s: State, d: DispenserId, p: PolledOrder, refused: bool): State
    requires d in s.dispensers
  {
    if d !in s.orders || s.orders[d].id != p.id then Emit(s, Close(d))
    else
      var t := SetOrder(NotePolled(s, d, p.id), d, s.orders[d].(status := p.status));
      var u := if p.status == Interrupted || p.status == Delivered then Finalize(t, d) else t;
      CreatePayment(OpenSale(u, p.id), p.id, refused)
  }

  /** What a polled status says about the dispenser itself; a nozzle also tells the order's product. */
  function StorePoll(s: State, d: DispenserId, status: DispenserStatus, nozzle: Option<ProductId>): (t: State)
    requires d in s.dispensers
    ensures d in t.dispensers
  {
    var was := s.dispensers[d];
    var product := if nozzle.Some? then nozzle.value else was.product;
    var t := SetDispenser(s, d, Dispenser(status, was.status, product, was.orderId));
    if nozzle.Some? then SetOrder(t, d, OrderOf(t, d).(product := nozzle.value)) else t
  }

  function PollStatus(s: State, d: DispenserId, status: DispenserStatus, nozzle: Option<ProductId>,
                      polled: Option<PolledOrder>, refused: bool): State {
    if d !in s.dispensers then s
    else if polled.Some? then PollOrder(StorePoll(s, d, status, nozzle), d, polled.value, refused)
    else StorePoll(s, d, status, nozzle)
  }

  /** An answer with the readings of a gauge serves the first task waiting for it. */
  function AnswerGauge(s: State, g: GaugeId): State {
    if Queue(s, g) == [] then s
    else
      var task, rest := Queue(s, g)[0], Queue(s, g)[1..];
      var t := Emit(s.(queues := s.queues[g := rest]), TaskPopped(g, task));
      if task.kind == BeforeFuelling then
        if rest == [] then t.(queues := t.queues - {g}) else t
      else if task.order in t.sales then
        var u := Emit(t, ReportSale(task.order, t.sales[task.order]));
        Emit(u.(sales := u.sales - {task.order}, queues := u.queues - {g}), TasksDiscarded(g, rest))
      else t
  }

  function AnswerPayment(s: State, o: OrderId, r: PaymentResult): State {
    if r == NoMoney || r == OtherFailure then FailPayment(s, o) else s
  }

  function CancelTransaction(s: State): State {
    if s.current == "" || s.current !in s.orders || s.orders[s.current].product !in s.products then s
    else
      var order := s.orders[s.current];
      var t := if order.id in s.sales
               then Push(SetSaleType(s, order.id, Revert), GaugeFor(s.tankers, order.product),
                         Task(order.id, s.current, AfterFuelling), AtCancellation)
               else s;
      Emit(Emit(Emit(Emit(t, PrintRefund(order.id)), CancelRequest), Close(s.current)), ClearCard)
  }

  /** `pricesSet` says that no product known so far lacks its price; without products there is nothing to choose. */
  function Choose(s: State, d: DispenserId, pricesSet: bool): State {
    if !pricesSet || s.products == {} then s
    else
      var t := s.(current := d);
      if d in t.dispensers && (t.dispensers[d].status == Fuelling || t.dispensers[d].status == Complete)
      then SetOrder(t, d, OrderOf(t, d)) else t
  }

  /** The dispensers of a device list, each with no known order, and a request for its status. */
  function Register(s: State, ids: seq<DispenserId>): State {
    if ids == [] then s
    else
      var d := ids[|ids| - 1];
      AskStatus(SetDispenser(Register(s, ids[..|ids| - 1]), d, NEW_DISPENSER), d)
  }

  function Reload(s: State, ids: seq<DispenserId>): State {
    Register(Emit(s.(dispensers := map[]), DevicesLoaded), ids)
  }

  function Step(s: State, e: Event): State {
    match e
    case LoadDevices(ids) => Reload(s, ids)
    case LoadTankers(tankers) => s.(tankers := s.tankers + tankers)
    case LoadProducts(products) => s.(products := s.products + products)
    case ChooseDispenser(d, pricesSet) => Choose(s, d, pricesSet)
    case LeaveDispenser => s.(current := "")
    case NewOrderTouch => Emit(s, ClearCard).(current := "")
    case BeginTouch => TouchBegin(s)
    case CloseTouch => AskStatus(Emit(s, Close(s.current)), s.current)
    case CancelTouch => CancelTransaction(s)
    case CancelPinTouch => Emit(Emit(s, Close(s.current)), ClearCard)
    case DeviceEvent(_, _, _, _, _) => ProcessDeviceEvent(s, e)
    case StatusPoll(d, status, nozzle, polled, refused) => PollStatus(s, d, status, nozzle, polled, refused)
    case GaugeAnswer(g) => AnswerGauge(s, g)
    case PaymentAnswer(o, r) => AnswerPayment(s, o, r)
  }

  function After(events: seq<Event>): State {
    if events == [] then INITIAL else Step(After(events[..|events| - 1]), events[|events| - 1])
  }

  lemma AfterOneMore(events: seq<Event>, e: Event)
    ensures After(events + [e]) == Step(After(events), e)
  {
    assert (events + [e])[..|events|] == events;
  }

  /** A continuation: events handled one after the other from a state. */
  function Through(s: State, events: seq<Event>): State
    decreases |events|
  {
    if events == [] then s else Through(Step(s, events[0]), events[1..])
  }

  lemma {:induction false} ThroughOneMore(s: State, events: seq<Event>, e: Event)
    ensures Through(s, events + [e]) == Step(Through(s, events), e)
    decreases |events|
  {
    hide Step;
    if events != [] {
      assert (events + [e])[1..] == events[1..] + [e];
      ThroughOneMore(Step(s, events[0]), events[1..], e);
    }
  }

  /** Continuing a run by some events is continuing from its state: in particular, a message with several events takes
      their steps one after the other. */
  lemma {:induction false} RunsContinue(events: seq<Event>, more: seq<Event>)
    ensures After(events + more) == Through(After(events), more)
    decreases |more|
  {
    hide Step;
    if more == [] {
      assert events + more == events;
    } else {
      var less, e := more[..|more| - 1], more[|more| - 1];
      assert more == less + [e] && (events + more)[..|events + more| - 1] == events + less;
      RunsContinue(events, less);
      ThroughOneMore(After(events), less, e);
    }
  }
}
