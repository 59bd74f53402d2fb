/** What the order logic keeps about orders, dispensers, tankers and products: told event by event, and over whole runs
  read off the events. */
module PrimeStored {
  import opened Basics
  import opened PrimeModel
  import opened PrimeRuns
  import opened PrimeCauses
  import opened PrimeReturns
  import opened PrimeBystanders

  /** The order of a dispenser after an event: a change tells its status, a creation starts it anew, a return closes it,
      and a poll tells its product, and its status when it shows this very order, which ends it for good. */
  function OrderNext(s: State, e: Event, d: DispenserId): Order {
    var order := OrderOf(s, d);
    if e.DeviceEvent? && e.dispenser == d then
      if CreationSeen(s, e) then Order(e.created.value, NoOrderStatus, "", false, false)
      else
        var changed := if e.orderChange.Some? && e.orderChange.value.status.Some?
                       then order.(status := e.orderChange.value.status.value) else order;
        if ReturnSeen(s, e, d) then changed.(closed := true) else changed
    else if e.StatusPoll? && e.dispenser == d && d in s.dispensers then
      var told := order.(product := Told(e.nozzle, order.product));
      if OwnOrderSeen(s, e)
      then told.(status := e.polled.value.status, finalized := order.finalized || EndSeen(s, e, d)) else told
    else order
  }

  /** What is kept of a dispenser, but for its previous status, which decides nothing. */
  datatype Kept = Kept(status: DispenserStatus, product: ProductId, orderId: OrderId)

  function KeptOf(s: State, d: DispenserId): Option<Kept> {
    if d in s.dispensers then Some(Kept(s.dispensers[d].status, s.dispensers[d].product, s.dispensers[d].orderId))
    else None
  }

  function KeptNext(s: State, e: Event, d: DispenserId): Option<Kept> {
    match e
    case LoadDevices(ids) => if d in ids then Some(Kept(Idle, "", "")) else None
    case DeviceEvent(x, _, Some(c), _, _) =>
      if x == d && KeptOf(s, d).Some?
      then Some(Kept(c.status, Told(c.nozzle, s.dispensers[d].product), s.dispensers[d].orderId)) else KeptOf(s, d)
    case StatusPoll(x, status, nozzle, polled, _) =>
      if x == d && KeptOf(s, d).Some?
      then Some(Kept(status, Told(nozzle, s.dispensers[d].product),
                     if OwnOrderSeen(s, e) then polled.value.id else s.dispensers[d].orderId)) else KeptOf(s, d)
    case _ => KeptOf(s, d)
  }

  // ------------------------------------------------------------- device events

  lemma ChangedOrder(s: State, at: DispenserId, c: OrderChange, d: DispenserId)
    ensures var order, t := OrderOf(s, d), ChangeOrder(s, at, c);
            OrderOf(t, d) == if d == at && c.status.Some? then order.(status := c.status.value) else order
  {
    hide AskStatus, OpenSale, Push, GaugeFor;
    var order := OrderOf(s, at);
    var t := SetOrder(s, at, if c.status.Some? then order.(status := c.status.value) else order);
    DispensersOfPieces(t, at, order.id);
    var g, task := GaugeFor(t.tankers, order.product), Task(order.id, at, BeforeFuelling);
    DispensersOfPush(OpenSale(t, order.id), g, task, AtAuthorization);
  }

  lemma ReturnedOrder(s: State, at: DispenserId, now: Dispenser, d: DispenserId)
    ensures var t := ReturnPistol(s, at, now);
            OrderOf(t, d) == if d == at then OrderOf(s, d).(closed := true) else OrderOf(s, d)
  {
    hide Push, GaugeFor;
    var u := MarkReturned(Emit(s, Close(at)), at);
    DispensersOfPush(u, GaugeFor(u.tankers, now.product), Task(now.orderId, at, AfterFuelling), AtClosing);
  }

  lemma StatusOrder(s: State, at: DispenserId, c: StatusChange, d: DispenserId)
    ensures var t := RandomStatus(s, at, c);
            OrderOf(t, d) ==
            if d == at && d in s.dispensers && c.status == Idle &&
               (s.dispensers[d].status == Complete || s.dispensers[d].status == Fuelling)
            then OrderOf(s, d).(closed := true) else OrderOf(s, d)
  {
    hide ReturnPistol;
    if at in s.dispensers {
      var was := s.dispensers[at];
      var now := Dispenser(c.status, was.status, if c.nozzle.Some? then c.nozzle.value else was.product, was.orderId);
      ReturnedOrder(SetDispenser(s, at, now), at, now, d);
    }
  }

  lemma StatusKept(s: State, at: DispenserId, c: StatusChange, d: DispenserId)
    requires at in s.dispensers
    ensures var t := RandomStatus(s, at, c);
            KeptOf(t, d) ==
            if d == at
            then Some(Kept(c.status, Told(c.nozzle, s.dispensers[d].product), s.dispensers[d].orderId))
            else KeptOf(s, d)
  {
    hide ReturnPistol;
    var was := s.dispensers[at];
    var now := Dispenser(c.status, was.status, if c.nozzle.Some? then c.nozzle.value else was.product, was.orderId);
    ReturnFrame(SetDispenser(s, at, now), at, now);
  }

  lemma CreatedOrder(s: State, at: DispenserId, id: OrderId)
    ensures var t := CreateOrder(s, at, id);
            t.orders == s.orders[at := NO_ORDER.(id := id)] && t.dispensers == s.dispensers
  {
  }

  /** A status goes through both handlers, or only through the first. */
  lemma BothHandlersStore(s: State, at: DispenserId, c: StatusChange, d: DispenserId)
    ensures var t := RandomStatus(s, at, c);
            var u := SelectedStatus(t, at, c);
            var order, kept := OrderOf(t, d), KeptOf(t, d);
            && OrderOf(u, d) == order && KeptOf(u, d) == kept
            && order == (if d == at && d in s.dispensers && c.status == Idle &&
                            (s.dispensers[d].status == Complete || s.dispensers[d].status == Fuelling)
                         then OrderOf(s, d).(closed := true) else OrderOf(s, d))
            && kept == (if d == at && d in s.dispensers
                        then Some(Kept(c.status, Told(c.nozzle, s.dispensers[d].product), s.dispensers[d].orderId))
                        else KeptOf(s, d))
  {
    hide RandomStatus, SelectedStatus;
    StatusOrder(s, at, c, d);
    SecondHandlerOnlyShiftsStatus(s, at, c);
    if at in s.dispensers {
      StatusKept(s, at, c, d);
      StatusKept(s, at, c, at);
      StatusStored(s, at, c);
    } else {
      UnknownStays(s, at, c);
    }
  }

  lemma EventStored(s: State, e: Event, d: DispenserId)
    requires e.DeviceEvent?
    ensures OrderOf(ProcessDeviceEvent(s, e), d) == OrderNext(s, e, d)
    ensures KeptOf(ProcessDeviceEvent(s, e), d) == KeptNext(s, e, d)
  {
    hide ChangeOrder, RandomStatus, SelectedStatus, CreateOrder;
    var at := e.dispenser;
    var t := if e.orderChange.Some? then ChangeOrder(s, at, e.orderChange.value) else s;
    if e.orderChange.Some? {
      ChangedOrder(s, at, e.orderChange.value, d);
      ChangeOrderDispensers(s, at, e.orderChange.value);
      ChangeOrderFrame(s, at, e.orderChange.value);
    }
    if e.statusChange.Some? {
      BothHandlersStore(t, at, e.statusChange.value, d);
    } else if e.created.Some? {
      CreatedOrder(t, at, e.created.value);
    }
  }

  // --------------------------------------------------------------------- polls

  lemma FinalizedOrders(s: State, at: DispenserId)
    requires at in s.orders
    ensures var t := Finalize(s, at);
            t.orders == s.orders[at := s.orders[at].(finalized := true)] && t.dispensers == s.dispensers
  {
    hide SettleSale, Push, GaugeFor;
    var order := s.orders[at];
    SettleFrame(s, order);
    var v := SetOrder(SettleSale(s, order), at, order.(finalized := true));
    var g, task := GaugeFor(v.tankers, order.product), Task(order.id, at, AfterFuelling);
    DispensersOfPush(v, g, task, AtFinalization);
    assert order.finalized ==> s.orders == s.orders[at := order.(finalized := true)];
  }

  lemma PolledOrders(s: State, at: DispenserId, p: PolledOrder, refused: bool)
    requires at in s.dispensers
    ensures var t := PollOrder(s, at, p, refused);
            if at in s.orders && s.orders[at].id == p.id
            then
              var ended := p.status == Interrupted || p.status == Delivered;
              var order := s.orders[at].(status := p.status, finalized := s.orders[at].finalized || ended);
              && t.orders == s.orders[at := order]
              && t.dispensers == s.dispensers[at := s.dispensers[at].(orderId := p.id)]
            else t.orders == s.orders && t.dispensers == s.dispensers
  {
    hide Finalize, OpenSale, CreatePayment;
    if at in s.orders && s.orders[at].id == p.id {
      var u := SetOrder(NotePolled(s, at, p.id), at, s.orders[at].(status := p.status));
      FinalizedOrders(u, at);
      var v := if p.status == Interrupted || p.status == Delivered then Finalize(u, at) else u;
      DispensersOfPieces(v, "", p.id);
      PaymentKeepsDispensers(OpenSale(v, p.id), p.id, refused);
    }
  }

  lemma StoredPoll(s: State, at: DispenserId, status: DispenserStatus, nozzle: Option<ProductId>, d: DispenserId)
    requires at in s.dispensers
    ensures var t := StorePoll(s, at, status, nozzle);
            && OrderOf(t, d) ==
               (if d == at then OrderOf(s, d).(product := Told(nozzle, OrderOf(s, d).product)) else OrderOf(s, d))
            && KeptOf(t, d) ==
               (if d == at
                then Some(Kept(status, Told(nozzle, s.dispensers[d].product), s.dispensers[d].orderId))
                else KeptOf(s, d))
            && (at in t.orders <==> at in s.orders || nozzle.Some?)
  {
  }

  lemma PollStored(s: State, e: Event, d: DispenserId)
    requires e.StatusPoll?
    ensures OrderOf(Step(s, e), d) == OrderNext(s, e, d) && KeptOf(Step(s, e), d) == KeptNext(s, e, d)
  {
    hide StorePoll, PollOrder;
    var at := e.dispenser;
    if at in s.dispensers {
      var t := StorePoll(s, at, e.status, e.nozzle);
      StoredPoll(s, at, e.status, e.nozzle, d);
      StoredPoll(s, at, e.status, e.nozzle, at);
      if e.polled.Some? {
        PolledOrders(t, at, e.polled.value, e.paymentRefused);
      }
    }
  }

  // ---------------------------------------------------------------- every event

  lemma {:induction false} RegisteredKept(s: State, ids: seq<DispenserId>, d: DispenserId)
    ensures var t := Register(s, ids);
            t.orders == s.orders && KeptOf(t, d) == if d in ids then Some(Kept(Idle, "", "")) else KeptOf(s, d)
  {
    hide AskStatus;
    if ids != [] {
      var t := Register(s, ids[..|ids| - 1]);
      RegisteredKept(s, ids[..|ids| - 1], d);
      DispensersOfPieces(SetDispenser(t, ids[|ids| - 1], NEW_DISPENSER), ids[|ids| - 1], "");
      assert ids == ids[..|ids| - 1] + [ids[|ids| - 1]];
    }
  }

  lemma ChosenStored(s: State, at: DispenserId, pricesSet: bool, d: DispenserId)
    ensures OrderOf(Choose(s, at, pricesSet), d) == OrderOf(s, d) && KeptOf(Choose(s, at, pricesSet), d) == KeptOf(s, d)
  {
  }

  /** What every step leaves of every order and every dispenser. */
  lemma StepStored(s: State, e: Event, d: DispenserId)
    ensures OrderOf(Step(s, e), d) == OrderNext(s, e, d) && KeptOf(Step(s, e), d) == KeptNext(s, e, d)
  {
    hide TouchBegin, CancelTransaction, ProcessDeviceEvent, PollStatus, AnswerGauge, Register, FailPayment, Choose;
    match e
    case LoadDevices(ids) => RegisteredKept(Emit(s.(dispensers := map[]), DevicesLoaded), ids, d);
    case ChooseDispenser(at, pricesSet) => ChosenStored(s, at, pricesSet, d);
    case BeginTouch => TouchKeepsDispensers(s);
    case CancelTouch => CancelKeepsDispensers(s);
    case DeviceEvent(_, _, _, _, _) => EventStored(s, e, d);
    case StatusPoll(_, _, _, _, _) => PollStored(s, e, d);
    case GaugeAnswer(x) => GaugeKeepsDispensers(s, x);
    case PaymentAnswer(o, _) => FailureKeepsDispensers(s, o);
    case _ =>
  }

  // ----------------------------------------------------------------- whole runs

  /** All tankers and products that were ever loaded. */
  function TankersLoaded(events: seq<Event>): seq<Tanker> {
    if events == [] then []
    else
      var e := events[|events| - 1];
      TankersLoaded(events[..|events| - 1]) + if e.LoadTankers? then e.tankers else []
  }

  function ProductsLoaded(events: seq<Event>): set<ProductId> {
    if events == [] then {}
    else
      var e := events[|events| - 1];
      ProductsLoaded(events[..|events| - 1]) + if e.LoadProducts? then e.products else {}
  }

  /** The dispenser last chosen, when prices were set and products known, unless it was left since. */
  function ChosenLast(events: seq<Event>): DispenserId {
    if events == [] then ""
    else
      var before, e := events[..|events| - 1], events[|events| - 1];
      if e.LeaveDispenser? || e.NewOrderTouch? then ""
      else if e.ChooseDispenser? && e.pricesSet && ProductsLoaded(before) != {} then e.dispenser else ChosenLast(before)
  }

  lemma {:induction false} SettingIsRead(events: seq<Event>)
    ensures var s := After(events);
            && s.tankers == TankersLoaded(events) && s.products == ProductsLoaded(events)
            && s.current == ChosenLast(events)
  {
    if events != [] {
      SettingIsRead(events[..|events| - 1]);
      StepSetting(After(events[..|events| - 1]), events[|events| - 1]);
      hide Step;
    }
  }

  /** The product last told for a dispenser, by an event or a poll, since its devices were loaded. */
  function ProductTold(events: seq<Event>, d: DispenserId): ProductId {
    if events == [] then ""
    else
      var before := ProductTold(events[..|events| - 1], d);
      match events[|events| - 1]
      case LoadDevices(_) => ""
      case DeviceEvent(x, _, Some(c), _, _) => if x == d then Told(c.nozzle, before) else before
      case StatusPoll(x, _, nozzle, _, _) => if x == d then Told(nozzle, before) else before
      case _ => before
  }

  /** In every run the product kept for a known dispenser, which decides whose gauge is asked at the end, is the one
      last told. */
  lemma {:induction false} ProductIsLastTold(events: seq<Event>, d: DispenserId)
    ensures d in After(events).dispensers ==> After(events).dispensers[d].product == ProductTold(events, d)
  {
    if events != [] {
      ProductIsLastTold(events[..|events| - 1], d);
      StepStored(After(events[..|events| - 1]), events[|events| - 1], d);
      hide Step;
    }
  }

  // --------------------------------------------------------- failed payments

  /** A payment that failed for good closes the order at the chosen dispenser, then clears the card, and takes the sale
      off the ledger; other answers change nothing of this. */
  lemma FailedPaymentCloses(s: State, o: OrderId, r: PaymentResult)
    ensures var t := Step(s, PaymentAnswer(o, r));
            if r == NoMoney || r == OtherFailure
            then && t.trace == s.trace + [Close(s.current), ClearCard] + (if o in s.sales then [SaleDropped(o)] else [])
                 && t.sales == s.sales - {o}
            else t == s
  {
    assert s.trace + [Close(s.current)] + [ClearCard] == s.trace + [Close(s.current), ClearCard];
  }
}
