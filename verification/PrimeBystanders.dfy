/** Which events leave the orders that wait at a gauge alone, told before any of them is handled. */
module PrimeBystanders {
  import opened Basics
  import opened PrimeModel
  import opened PrimeRuns
  import opened PrimeCauses
  import opened PrimeService

  /** Some orders, the dispensers that know them, and the gauges where their tasks wait. */
  datatype Concern = Concern(orders: set<OrderId>, dispensers: set<DispenserId>, gauges: set<GaugeId>)

  /** The event is about other dispensers, orders and gauges, or an answer of the gauge `g` itself.  A touch concerns
      the chosen dispenser, which is one of `chosen`. */
  predicate Bystander(e: Event, g: GaugeId, c: Concern, chosen: set<DispenserId>) {
    match e
    case GaugeAnswer(x) => x == g || x !in c.gauges
    case BeginTouch => chosen !! c.dispensers
    case CancelTouch => chosen !! c.dispensers
    case DeviceEvent(d, _, _, _, created) => d !in c.dispensers && (created.Some? ==> created.value !in c.orders)
    case StatusPoll(d, _, _, _, _) => d !in c.dispensers
    case PaymentAnswer(o, r) => o !in c.orders || (r != NoMoney && r != OtherFailure)
    case _ => true
  }

  function ChosenNext(chosen: set<DispenserId>, e: Event): set<DispenserId> {
    match e
    case ChooseDispenser(d, _) => chosen + {d}
    case LeaveDispenser => {""}
    case NewOrderTouch => {""}
    case _ => chosen
  }

  /** Read off the events alone. */
  predicate Bystanders(more: seq<Event>, g: GaugeId, c: Concern, chosen: set<DispenserId>) {
    more != [] ==>
      Bystander(more[0], g, c, chosen) && Bystanders(more[1..], g, c, ChosenNext(chosen, more[0]))
  }

  function OrderIdOf(s: State, d: DispenserId): OrderId {
    if d in s.dispensers then s.dispensers[d].orderId else ""
  }

  predicate DispenserApart(s: State, c: Concern, d: DispenserId) {
    d !in c.dispensers ==> OrderOf(s, d).id !in c.orders && OrderIdOf(s, d) !in c.orders
  }

  predicate GaugeApart(s: State, c: Concern, x: GaugeId) {
    x !in c.gauges ==> forall i :: 0 <= i < |Queue(s, x)| ==> Queue(s, x)[i].order !in c.orders
  }

  /** No other dispenser knows these orders, and no other gauge has tasks for them. */
  ghost predicate Apart(s: State, c: Concern) {
    && "" !in c.orders
    && (forall d :: DispenserApart(s, c, d))
    && (forall x :: GaugeApart(s, c, x))
  }

  // -------------------------------------------------------- ids of dispensers

  predicate SameIds(s: State, t: State, d: DispenserId) {
    OrderOf(t, d).id == OrderOf(s, d).id && OrderIdOf(t, d) == OrderIdOf(s, d)
  }

  lemma SameIdsChain(s: State, t: State, u: State, d: DispenserId)
    requires SameIds(s, t, d) && SameIds(t, u, d)
    ensures SameIds(s, u, d)
  {
  }

  lemma SameParts(s: State, t: State, d: DispenserId)
    requires s.orders == t.orders && s.dispensers == t.dispensers
    ensures SameIds(s, t, d)
  {
  }

  lemma SetOrderIds(s: State, at: DispenserId, order: Order, d: DispenserId)
    requires order.id == OrderOf(s, at).id
    ensures SameIds(s, SetOrder(s, at, order), d)
  {
  }

  lemma SetDispenserIds(s: State, at: DispenserId, now: Dispenser, d: DispenserId)
    requires at in s.dispensers && now.orderId == s.dispensers[at].orderId
    ensures SameIds(s, SetDispenser(s, at, now), d)
  {
  }

  lemma ChangeOrderIds(s: State, at: DispenserId, c: OrderChange, d: DispenserId)
    ensures SameIds(s, ChangeOrder(s, at, c), d)
  {
    hide SameIds, AskStatus, OpenSale, Push, GaugeFor;
    var order := OrderOf(s, at);
    var now := if c.status.Some? then order.(status := c.status.value) else order;
    var t := SetOrder(s, at, now);
    SetOrderIds(s, at, now, d);
    DispensersOfPieces(t, at, order.id);
    var g, task := GaugeFor(t.tankers, order.product), Task(order.id, at, BeforeFuelling);
    DispensersOfPush(OpenSale(t, order.id), g, task, AtAuthorization);
    SameParts(t, ChangeOrder(s, at, c), d);
    SameIdsChain(s, t, ChangeOrder(s, at, c), d);
  }

  lemma ReturnIds(s: State, at: DispenserId, now: Dispenser, d: DispenserId)
    ensures SameIds(s, ReturnPistol(s, at, now), d)
  {
    hide SameIds, Push, GaugeFor;
    var t := Emit(Emit(s, Close(at)), PistolReturned(at));
    SameParts(s, t, d);
    var u := MarkReturned(Emit(s, Close(at)), at);
    SetOrderIds(t, at, OrderOf(t, at).(closed := true), d);
    SameIdsChain(s, t, u, d);
    var g, task := GaugeFor(u.tankers, now.product), Task(now.orderId, at, AfterFuelling);
    DispensersOfPush(u, g, task, AtClosing);
    SameParts(u, ReturnPistol(s, at, now), d);
    SameIdsChain(s, u, ReturnPistol(s, at, now), d);
  }

  lemma RandomStatusIds(s: State, at: DispenserId, c: StatusChange, d: DispenserId)
    ensures SameIds(s, RandomStatus(s, at, c), d)
  {
    hide SameIds, ReturnPistol;
    SameParts(s, s, d);
    if at in s.dispensers {
      var was := s.dispensers[at];
      var now := Dispenser(c.status, was.status, if c.nozzle.Some? then c.nozzle.value else was.product, was.orderId);
      var t := SetDispenser(s, at, now);
      SetDispenserIds(s, at, now, d);
      ReturnIds(t, at, now, d);
      SameIdsChain(s, t, ReturnPistol(t, at, now), d);
    }
  }

  /** Afterwards the dispenser knows no orders but those it knew and one the event created for it. */
  predicate IdsFrom(s: State, e: Event, t: State, d: DispenserId) {
    && (OrderOf(t, d).id == OrderOf(s, d).id ||
        (e.DeviceEvent? && e.dispenser == d && e.created == Some(OrderOf(t, d).id)))
    && (OrderIdOf(t, d) == OrderIdOf(s, d) || OrderIdOf(t, d) == "" || OrderIdOf(t, d) == OrderOf(s, d).id)
  }

  lemma SameIsFrom(s: State, e: Event, t: State, d: DispenserId)
    requires SameIds(s, t, d)
    ensures IdsFrom(s, e, t, d)
  {
  }

  lemma CreateIds(s: State, e: Event, t: State, d: DispenserId)
    requires SameIds(s, t, d) && e.DeviceEvent? && e.created.Some?
    ensures IdsFrom(s, e, CreateOrder(t, e.dispenser, e.created.value), d)
  {
  }

  lemma DeviceEventIds(s: State, e: Event, d: DispenserId)
    requires e.DeviceEvent?
    ensures IdsFrom(s, e, ProcessDeviceEvent(s, e), d)
  {
    hide SameIds, IdsFrom, ChangeOrder, RandomStatus, SelectedStatus, CreateOrder;
    var at := e.dispenser;
    var t := if e.orderChange.Some? then ChangeOrder(s, at, e.orderChange.value) else s;
    SameParts(s, s, d);
    if e.orderChange.Some? {
      ChangeOrderIds(s, at, e.orderChange.value, d);
    }
    SameIsFrom(s, e, t, d);
    if e.statusChange.Some? {
      var c := e.statusChange.value;
      var u := RandomStatus(t, at, c);
      RandomStatusIds(t, at, c, d);
      SameIdsChain(s, t, u, d);
      SameIsFrom(s, e, u, d);
      SelectedIds(t, at, c, d);
      SameIdsChain(s, u, SelectedStatus(u, at, c), d);
      SameIsFrom(s, e, SelectedStatus(u, at, c), d);
    } else if e.created.Some? {
      CreateIds(s, e, t, d);
    }
  }

  lemma SelectedIds(s: State, at: DispenserId, c: StatusChange, d: DispenserId)
    ensures var t := RandomStatus(s, at, c);
            SameIds(t, SelectedStatus(t, at, c), d)
  {
    hide RandomStatus, SelectedStatus;
    SecondHandlerOnlyShiftsStatus(s, at, c);
    if at in s.dispensers {
      StatusStored(s, at, c);
    }
  }

  lemma FinalizeIds(s: State, at: DispenserId, d: DispenserId)
    ensures SameIds(s, Finalize(s, at), d)
  {
    hide SameIds, SettleSale, Push, GaugeFor;
    SameParts(s, s, d);
    var order := OrderOf(s, at);
    SettleFrame(s, order);
    var u := SettleSale(s, order);
    var v := SetOrder(u, at, order.(finalized := true));
    SameParts(s, u, d);
    SetOrderIds(u, at, order.(finalized := true), d);
    SameIdsChain(s, u, v, d);
    var g, task := GaugeFor(v.tankers, order.product), Task(order.id, at, AfterFuelling);
    DispensersOfPush(v, g, task, AtFinalization);
    if !order.finalized {
      SameParts(v, Finalize(s, at), d);
      SameIdsChain(s, v, Finalize(s, at), d);
    }
  }

  lemma PaymentKeepsDispensers(s: State, id: OrderId, refused: bool)
    ensures CreatePayment(s, id, refused).dispensers == s.dispensers
    ensures CreatePayment(s, id, refused).orders == s.orders
  {
  }

  lemma PolledIds(s: State, e: Event, t: State, at: DispenserId, d: DispenserId)
    requires at in s.dispensers && SameIds(NotePolled(s, at, OrderOf(s, at).id), t, d)
    ensures IdsFrom(s, e, t, d)
  {
  }

  lemma PollOrderIds(s: State, e: Event, at: DispenserId, p: PolledOrder, refused: bool, d: DispenserId)
    requires at in s.dispensers
    ensures IdsFrom(s, e, PollOrder(s, at, p, refused), d)
  {
    hide SameIds, IdsFrom, Finalize, OpenSale, CreatePayment;
    SameParts(s, Emit(s, Close(at)), d);
    SameIsFrom(s, e, Emit(s, Close(at)), d);
    if at in s.orders && s.orders[at].id == p.id {
      var n := NotePolled(s, at, p.id);
      var now := s.orders[at].(status := p.status);
      var u := SetOrder(n, at, now);
      SetOrderIds(n, at, now, d);
      var v := if p.status == Interrupted || p.status == Delivered then Finalize(u, at) else u;
      FinalizeIds(u, at, d);
      SameParts(u, u, d);
      SameIdsChain(n, u, v, d);
      DispensersOfPieces(v, "", p.id);
      PaymentKeepsDispensers(OpenSale(v, p.id), p.id, refused);
      SameParts(v, PollOrder(s, at, p, refused), d);
      SameIdsChain(n, v, PollOrder(s, at, p, refused), d);
      PolledIds(s, e, PollOrder(s, at, p, refused), at, d);
    }
  }

  lemma StoredIds(s: State, at: DispenserId, status: DispenserStatus, nozzle: Option<ProductId>, d: DispenserId)
    requires at in s.dispensers
    ensures SameIds(s, StorePoll(s, at, status, nozzle), d)
  {
  }

  lemma PollIds(s: State, e: Event, d: DispenserId)
    requires e.StatusPoll?
    ensures IdsFrom(s, e, Step(s, e), d)
  {
    hide StorePoll, PollOrder;
    var at := e.dispenser;
    if at in s.dispensers {
      var t := StorePoll(s, at, e.status, e.nozzle);
      StoredIds(s, at, e.status, e.nozzle, d);
      if e.polled.Some? {
        PollOrderIds(t, e, at, e.polled.value, e.paymentRefused, d);
      }
    }
  }

  lemma {:induction false} RegisteredIds(s: State, ids: seq<DispenserId>, d: DispenserId)
    ensures var t := Register(s, ids);
            t.orders == s.orders && (OrderIdOf(t, d) == OrderIdOf(s, d) || OrderIdOf(t, d) == "")
  {
    hide AskStatus;
    if ids != [] {
      var t := Register(s, ids[..|ids| - 1]);
      RegisteredIds(s, ids[..|ids| - 1], d);
      DispensersOfPieces(SetDispenser(t, ids[|ids| - 1], NEW_DISPENSER), ids[|ids| - 1], "");
    }
  }

  lemma TouchKeepsDispensers(s: State)
    ensures TouchBegin(s).dispensers == s.dispensers && TouchBegin(s).orders == s.orders
  {
  }

  lemma GaugeKeepsDispensers(s: State, g: GaugeId)
    ensures AnswerGauge(s, g).dispensers == s.dispensers && AnswerGauge(s, g).orders == s.orders
  {
  }

  lemma FailureKeepsDispensers(s: State, id: OrderId)
    ensures FailPayment(s, id).dispensers == s.dispensers && FailPayment(s, id).orders == s.orders
  {
  }

  lemma CancelKeepsDispensers(s: State)
    ensures CancelTransaction(s).dispensers == s.dispensers && CancelTransaction(s).orders == s.orders
  {
    hide Push, SetSaleType, GaugeFor;
    if s.current in s.orders {
      var order := s.orders[s.current];
      var u := SetSaleType(s, order.id, Revert);
      SaleTypeKeepsDispensers(s, order.id);
      var g, task := GaugeFor(s.tankers, order.product), Task(order.id, s.current, AfterFuelling);
      DispensersOfPush(u, g, task, AtCancellation);
    }
  }

  lemma SaleTypeKeepsDispensers(s: State, id: OrderId)
    ensures SetSaleType(s, id, Revert).dispensers == s.dispensers && SetSaleType(s, id, Revert).orders == s.orders
  {
  }

  lemma StepIds(s: State, e: Event, d: DispenserId)
    ensures IdsFrom(s, e, Step(s, e), d)
  {
    hide TouchBegin, CancelTransaction, ProcessDeviceEvent, PollStatus, AnswerGauge, Register, FailPayment;
    match e
    case LoadDevices(ids) => RegisteredIds(Emit(s.(dispensers := map[]), DevicesLoaded), ids, d);
    case BeginTouch => TouchKeepsDispensers(s);
    case CancelTouch => CancelKeepsDispensers(s);
    case DeviceEvent(_, _, _, _, _) => DeviceEventIds(s, e, d);
    case StatusPoll(_, _, _, _, _) => PollIds(s, e, d);
    case GaugeAnswer(x) => GaugeKeepsDispensers(s, x);
    case PaymentAnswer(o, _) => FailureKeepsDispensers(s, o);
    case _ =>
  }

  // ------------------------------------------------------ the chosen dispenser

  predicate SameSetting(s: State, t: State) {
    (t.current, t.tankers, t.products) == (s.current, s.tankers, s.products)
  }

  lemma CurrentOfPush(s: State, g: GaugeId, task: Task, origin: Origin)
    ensures SameSetting(s, Push(s, g, task, origin))
  {
    hide Queue;
  }

  lemma CurrentOfStatus(s: State, d: DispenserId, c: StatusChange)
    ensures SameSetting(s, RandomStatus(s, d, c))
  {
    hide Push, GaugeFor;
    if d in s.dispensers {
      var was := s.dispensers[d];
      var now := Dispenser(c.status, was.status, if c.nozzle.Some? then c.nozzle.value else was.product, was.orderId);
      var t := MarkReturned(Emit(SetDispenser(s, d, now), Close(d)), d);
      CurrentOfPush(t, GaugeFor(t.tankers, now.product), Task(now.orderId, d, AfterFuelling), AtClosing);
    }
  }

  lemma CurrentOfCreation(s: State, d: DispenserId, id: OrderId)
    ensures SameSetting(s, CreateOrder(s, d, id))
  {
  }

  lemma CurrentOfEvent(s: State, e: Event)
    requires e.DeviceEvent?
    ensures SameSetting(s, ProcessDeviceEvent(s, e))
  {
    hide ChangeOrder, RandomStatus, SelectedStatus, CreateOrder;
    var d := e.dispenser;
    var t := if e.orderChange.Some? then ChangeOrder(s, d, e.orderChange.value) else s;
    if e.orderChange.Some? {
      ChangeOrderFrame(s, d, e.orderChange.value);
    }
    if e.statusChange.Some? {
      CurrentOfStatus(t, d, e.statusChange.value);
      SecondHandlerOnlyShiftsStatus(t, d, e.statusChange.value);
    } else if e.created.Some? {
      CurrentOfCreation(t, d, e.created.value);
    }
  }

  lemma CurrentOfSettling(s: State, order: Order)
    ensures SameSetting(s, SettleSale(s, order))
  {
  }

  lemma CurrentOfFinalizing(s: State, d: DispenserId)
    ensures SameSetting(s, Finalize(s, d))
  {
    hide SettleSale, Push, GaugeFor;
    var order := OrderOf(s, d);
    CurrentOfSettling(s, order);
    SettleFrame(s, order);
    var v := SetOrder(SettleSale(s, order), d, order.(finalized := true));
    CurrentOfPush(v, GaugeFor(v.tankers, order.product), Task(order.id, d, AfterFuelling), AtFinalization);
  }

  lemma CurrentOfFailure(s: State, id: OrderId)
    ensures SameSetting(s, FailPayment(s, id)) && SameSetting(s, OpenSale(s, id))
  {
  }

  lemma CurrentOfPayment(s: State, id: OrderId, refused: bool)
    ensures SameSetting(s, CreatePayment(OpenSale(s, id), id, refused))
  {
    hide FailPayment, OpenSale;
    CurrentOfFailure(s, id);
    CurrentOfFailure(Emit(OpenSale(s, id), PayTransaction(id)), id);
  }

  lemma CurrentOfPolledOrder(s: State, d: DispenserId, p: PolledOrder, refused: bool)
    requires d in s.dispensers
    ensures SameSetting(s, PollOrder(s, d, p, refused))
  {
    hide Finalize, OpenSale, CreatePayment;
    if d in s.orders && s.orders[d].id == p.id {
      var u := SetOrder(NotePolled(s, d, p.id), d, s.orders[d].(status := p.status));
      CurrentOfFinalizing(u, d);
      CurrentOfPayment(u, p.id, refused);
      CurrentOfPayment(Finalize(u, d), p.id, refused);
    }
  }

  lemma CurrentOfStoring(s: State, d: DispenserId, status: DispenserStatus, nozzle: Option<ProductId>)
    requires d in s.dispensers
    ensures SameSetting(s, StorePoll(s, d, status, nozzle))
  {
  }

  lemma CurrentOfPoll(s: State, e: Event)
    requires e.StatusPoll?
    ensures SameSetting(s, Step(s, e))
  {
    hide StorePoll, PollOrder;
    if e.dispenser in s.dispensers {
      CurrentOfStoring(s, e.dispenser, e.status, e.nozzle);
      if e.polled.Some? {
        var t := StorePoll(s, e.dispenser, e.status, e.nozzle);
        CurrentOfPolledOrder(t, e.dispenser, e.polled.value, e.paymentRefused);
      }
    }
  }

  lemma {:induction false} CurrentOfRegistering(s: State, ids: seq<DispenserId>)
    ensures SameSetting(s, Register(s, ids))
  {
    if ids != [] {
      CurrentOfRegistering(s, ids[..|ids| - 1]);
    }
  }

  lemma CurrentOfCancelling(s: State)
    ensures SameSetting(s, CancelTransaction(s))
  {
    hide Push, GaugeFor;
    if s.current in s.orders {
      var order := s.orders[s.current];
      var u := SetSaleType(s, order.id, Revert);
      CurrentOfPush(u, GaugeFor(s.tankers, order.product), Task(order.id, s.current, AfterFuelling), AtCancellation);
    }
  }

  lemma CurrentOfTouch(s: State)
    ensures SameSetting(s, TouchBegin(s))
  {
  }

  lemma CurrentOfAnswers(s: State, g: GaugeId, o: OrderId)
    ensures SameSetting(s, AnswerGauge(s, g)) && SameSetting(s, FailPayment(s, o))
  {
  }

  function CurrentNext(s: State, e: Event): DispenserId {
    match e
    case ChooseDispenser(d, pricesSet) => if pricesSet && s.products != {} then d else s.current
    case LeaveDispenser => ""
    case NewOrderTouch => ""
    case _ => s.current
  }

  /** What every step leaves of the choice and of what is known about tankers and products. */
  lemma StepSetting(s: State, e: Event)
    ensures var t := Step(s, e);
            && t.current == CurrentNext(s, e)
            && t.tankers == s.tankers + (if e.LoadTankers? then e.tankers else [])
            && t.products == s.products + if e.LoadProducts? then e.products else {}
  {
    hide TouchBegin, CancelTransaction, ProcessDeviceEvent, PollStatus, AnswerGauge, Register, FailPayment;
    assert s.tankers + [] == s.tankers;
    match e
    case LoadDevices(ids) => CurrentOfRegistering(Emit(s.(dispensers := map[]), DevicesLoaded), ids);
    case BeginTouch => CurrentOfTouch(s);
    case CancelTouch => CurrentOfCancelling(s);
    case DeviceEvent(_, _, _, _, _) => CurrentOfEvent(s, e);
    case StatusPoll(_, _, _, _, _) => CurrentOfPoll(s, e);
    case GaugeAnswer(x) => CurrentOfAnswers(s, x, "");
    case PaymentAnswer(o, _) => CurrentOfAnswers(s, "", o);
    case _ =>
  }

  lemma StepCurrent(s: State, e: Event, chosen: set<DispenserId>)
    requires s.current in chosen
    ensures Step(s, e).current in ChosenNext(chosen, e)
  {
    hide Step;
    StepSetting(s, e);
  }

  // ------------------------------------------------------ queues and the ledger

  /** Only these tasks are new. */
  predicate PushesOnly(before: seq<Output>, after: seq<Output>, orders: set<OrderId>) {
    before <= after && forall i | |before| <= i < |after| :: after[i].TaskPushed? ==> after[i].task.order !in orders
  }

  lemma {:induction false} QueuesGrowBy(before: seq<Output>, after: seq<Output>, x: GaugeId, orders: set<OrderId>)
    requires PushesOnly(before, after, orders)
    ensures PushedTo(before, x) <= PushedTo(after, x) && |TakenFrom(before, x)| <= |TakenFrom(after, x)|
    ensures forall j | |PushedTo(before, x)| <= j < |PushedTo(after, x)| :: PushedTo(after, x)[j].order !in orders
    decreases |after|
  {
    if |after| == |before| {
      assert after == before;
    } else {
      QueuesGrowBy(before, after[..|after| - 1], x, orders);
    }
  }

  /** Every waiting task was waiting before or is new. */
  lemma WaitingTasks(s: State, t: State, x: GaugeId, orders: set<OrderId>)
    requires QueueTells(s, x) && QueueTells(t, x) && PushesOnly(s.trace, t.trace, orders)
    ensures forall i :: |Queue(s, x)| <= i < |Queue(t, x)| ==> Queue(t, x)[i].order !in orders
    ensures (forall i :: 0 <= i < |Queue(s, x)| ==> Queue(s, x)[i].order !in orders) ==>
              forall i :: 0 <= i < |Queue(t, x)| ==> Queue(t, x)[i].order !in orders
  {
    hide Queue, PushedTo, TakenFrom;
    QueuesGrowBy(s.trace, t.trace, x, orders);
    var p, q := PushedTo(s.trace, x), PushedTo(t.trace, x);
    var m, n := |TakenFrom(s.trace, x)|, |TakenFrom(t.trace, x)|;
    forall i | 0 <= i < |Queue(t, x)|
      ensures Queue(t, x)[i] == q[n + i] && (n + i < |p| ==> q[n + i] == p[n + i] == Queue(s, x)[n + i - m])
    {
    }
  }

  lemma TaskApart(s: State, e: Event, g: GaugeId, c: Concern, chosen: set<DispenserId>, x: GaugeId, task: Task,
                  origin: Origin)
    requires Bystander(e, g, c, chosen) && s.current in chosen && TaskDue(s, e, x, task, origin)
    requires DispenserApart(s, c, task.dispenser)
    ensures task.order !in c.orders
  {
    hide GaugeFor;
  }

  lemma OnlyOthersPushed(s: State, e: Event, g: GaugeId, c: Concern, chosen: set<DispenserId>)
    requires Apart(s, c) && Bystander(e, g, c, chosen) && s.current in chosen
    ensures PushesOnly(s.trace, Step(s, e).trace, c.orders)
  {
    hide Step, Bystander, DispenserApart, GaugeApart, TaskDue;
    var t := Step(s, e);
    EveryOutputIsCaused(s, e);
    forall i | |s.trace| <= i < |t.trace| && t.trace[i].TaskPushed? ensures t.trace[i].task.order !in c.orders {
      var o := t.trace[i];
      assert DispenserApart(s, c, o.task.dispenser);
      TaskApart(s, e, g, c, chosen, o.gauge, o.task, o.origin);
    }
  }

  lemma SaleApart(s: State, e: Event, g: GaugeId, c: Concern, chosen: set<DispenserId>, o: Output, id: OrderId)
    requires Apart(s, c) && Bystander(e, g, c, chosen) && s.current in chosen && e != GaugeAnswer(g) && id in c.orders
    requires Is(OpeningOf(id), o) || Is(DropOf(id), o) || Is(ReportOf(id), o)
    ensures !Cause(s, e, o)
  {
    hide GaugeFor;
    if e.GaugeAnswer? {
      assert GaugeApart(s, c, e.gauge);
    } else if e.DeviceEvent? || e.StatusPoll? {
      assert DispenserApart(s, c, e.dispenser);
    } else {
      assert DispenserApart(s, c, s.current);
    }
  }

  lemma SaleStays(s: State, e: Event, g: GaugeId, c: Concern, chosen: set<DispenserId>, id: OrderId)
    requires Apart(s, c) && Bystander(e, g, c, chosen) && s.current in chosen && e != GaugeAnswer(g) && id in c.orders
    requires Good(Key(id, "", ""), s)
    ensures id in s.sales <==> id in Step(s, e).sales
  {
    hide Step, Cause, Bystander, Apart, Count, PaidOnce, ConfirmedOnce, FlagsTell, QueueTells, Meets, BetweenSteps;
    var t := Step(s, e);
    EveryOutputIsCaused(s, e);
    StepKeeps(Key(id, "", ""), s, e);
    forall i | |s.trace| <= i < |t.trace|
      ensures !Is(OpeningOf(id), t.trace[i]) && !Is(DropOf(id), t.trace[i]) && !Is(ReportOf(id), t.trace[i])
    {
      if Is(OpeningOf(id), t.trace[i]) || Is(DropOf(id), t.trace[i]) || Is(ReportOf(id), t.trace[i]) {
        SaleApart(s, e, g, c, chosen, t.trace[i], id);
      }
    }
    CountSame(s.trace, t.trace, OpeningOf(id));
    CountSame(s.trace, t.trace, DropOf(id));
    CountSame(s.trace, t.trace, ReportOf(id));
  }

  /** The invariants of every run that are needed here. */
  ghost predicate Consistent(s: State) {
    forall k: Key :: Good(k, s)
  }

  lemma QueuesTell(s: State, x: GaugeId)
    requires Consistent(s)
    ensures QueueTells(s, x)
  {
    hide Inv;
    assert Good(Key("", "", x), s);
    GoodTells(Key("", "", x), s);
  }

  lemma GoodTells(k: Key, s: State)
    requires Good(k, s)
    ensures QueueTells(s, k.gauge)
  {
    hide QueueTells;
  }

  lemma ConsistentStep(s: State, e: Event)
    requires Consistent(s)
    ensures Consistent(Step(s, e))
  {
    hide Good, Step;
    forall k: Key ensures Good(k, Step(s, e)) {
      StepKeeps(k, s, e);
    }
  }

  lemma DispenserStaysApart(s: State, e: Event, g: GaugeId, c: Concern, chosen: set<DispenserId>, d: DispenserId)
    requires "" !in c.orders && DispenserApart(s, c, d) && Bystander(e, g, c, chosen)
    ensures DispenserApart(Step(s, e), c, d)
  {
    hide Step;
    StepIds(s, e, d);
  }

  /** A bystander leaves everything apart, and if it is no answer of the gauge, it leaves the orders alone. */
  lemma BystanderStep(s: State, e: Event, g: GaugeId, c: Concern, chosen: set<DispenserId>)
    requires Consistent(s) && Apart(s, c) && g in c.gauges && s.current in chosen && Bystander(e, g, c, chosen)
    ensures Apart(Step(s, e), c)
    ensures e != GaugeAnswer(g) ==> LeavesAlone(s, Step(s, e), g, c.orders)
  {
    hide Step, Bystander, Good, Queue, QueueTells;
    var t := Step(s, e);
    ConsistentStep(s, e);
    OnlyOthersPushed(s, e, g, c, chosen);
    forall d ensures DispenserApart(t, c, d) {
      assert DispenserApart(s, c, d);
      DispenserStaysApart(s, e, g, c, chosen, d);
    }
    forall x ensures GaugeApart(t, c, x) {
      assert GaugeApart(s, c, x);
      QueuesTell(s, x);
      QueuesTell(t, x);
      WaitingTasks(s, t, x, c.orders);
    }
    QueuesTell(s, g);
    QueuesTell(t, g);
    WaitingTasks(s, t, g, c.orders);
    if e != GaugeAnswer(g) {
      forall o | o in c.orders ensures o in s.sales <==> o in t.sales {
        assert Good(Key(o, "", ""), s);
        SaleStays(s, e, g, c, chosen, o);
      }
    }
  }

  lemma {:induction false} BystandersDoNotDisturb(s: State, more: seq<Event>, g: GaugeId, c: Concern,
                                                 chosen: set<DispenserId>)
    requires Consistent(s) && Apart(s, c) && g in c.gauges && s.current in chosen && Bystanders(more, g, c, chosen)
    ensures Undisturbed(s, more, g, c.orders)
    decreases |more|
  {
    hide Step, Consistent, Apart, Bystander, LeavesAlone;
    if more != [] {
      var e := more[0];
      BystanderStep(s, e, g, c, chosen);
      ConsistentStep(s, e);
      StepCurrent(s, e, chosen);
      BystandersDoNotDisturb(Step(s, e), more[1..], g, c, ChosenNext(chosen, e));
    }
  }

  /** A caller can tell beforehand: behind any run, let the orders of the tasks that wait at a gauge be known to some
      dispensers only and have tasks at some gauges only.  Events about other dispensers, orders and gauges, with no
      touch for these dispensers, and answers of the gauge make up a continuation that leaves the orders alone. */
  lemma BystandersLeaveAlone(events: seq<Event>, more: seq<Event>, g: GaugeId, c: Concern)
    requires Apart(After(events), c) && g in c.gauges && Bystanders(more, g, c, {After(events).current})
    ensures Undisturbed(After(events), more, g, c.orders)
  {
    hide After, Apart, Bystanders, Undisturbed, Good;
    var s := After(events);
    forall k: Key ensures Good(k, s) {
      RunsKeepInv(k, events);
    }
    BystandersDoNotDisturb(s, more, g, c, {s.current});
  }

  /** So a caller can tell which sale the answers of a gauge report: the first reportable one, exactly once, and no
      other of the waiting orders. */
  lemma ReportedAmongBystanders(events: seq<Event>, more: seq<Event>, g: GaugeId, c: Concern, o: OrderId)
    requires var s := After(events);
             && Apart(s, c) && g in c.gauges && c.orders == OrdersOf(Queue(s, g)) && o in c.orders
             && Bystanders(more, g, c, {s.current}) && AnswersOf(more, g) >= |Queue(s, g)|
    ensures var s := After(events);
            Count(After(events + more).trace, ReportOf(o)) ==
            Count(s.trace, ReportOf(o)) + if FirstReportable(s, Queue(s, g)) == Some(o) then 1 else 0
  {
    hide After, Apart, Bystanders, Undisturbed, Count, Queue, OrdersOf, Through;
    var s := After(events);
    BystandersLeaveAlone(events, more, g, c);
    ServedInAnyInterleaving(s, more, g, Queue(s, g), c.orders, o);
    RunsContinue(events, more);
  }
}
