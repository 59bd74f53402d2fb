/** The promises of the order logic, over every run. */
module PrimeTheorems {
  import opened Basics
  import opened PrimeModel
  import opened PrimeRuns
  import PrimeCauses

  // -------------------------------------------------- payment and confirmation

  /** PAY_TRANSACTION is sent at most once for an order id, and never for the empty one. */
  lemma PaidAtMostOnce(events: seq<Event>, order: OrderId)
    ensures Count(After(events).trace, PaymentOf(order)) <= if order == "" then 0 else 1
    ensures Count(After(events).trace, PaymentOf(order)) == 1 <==> order in After(events).paid
  {
    RunsKeepInv(Key(order, "", ""), events);
    hide After;
  }

  /** PAY_CONFIRM is sent for an order id no more often than orders with this id were created; so when the
      controller gives fresh ids, at most once. */
  lemma ConfirmedAtMostOncePerCreation(events: seq<Event>, order: OrderId)
    requires order != ""
    ensures Count(After(events).trace, ConfirmationOf(order)) <= Count(After(events).trace, CreationOf(order))
  {
    RunsKeepInv(Key(order, "", ""), events);
    hide After, Count;
  }

  /** A status poll that reports a delivered order without an id. */
  function NamelessPoll(d: DispenserId, product: ProductId): Event {
    StatusPoll(d, Complete, Some(product), Some(PolledOrder("", Delivered)), false)
  }

  lemma NamelessPollIsPollOrder(s: State, d: DispenserId, product: ProductId)
    requires d in s.dispensers && d !in s.orders
    ensures var now := Dispenser(Complete, s.dispensers[d].status, product, s.dispensers[d].orderId);
            Step(s, NamelessPoll(d, product)) ==
            PollOrder(SetOrder(SetDispenser(s, d, now), d, NO_ORDER.(product := product)), d,
                      PolledOrder("", Delivered), false)
  {
    hide PollOrder;
  }

  lemma NamelessPollConfirms(s: State, d: DispenserId, product: ProductId)
    requires d in s.dispensers && d !in s.orders
    ensures var t := Step(s, NamelessPoll(d, product));
            && t.trace == s.trace + [OrderPolled(d)] + [PayConfirm("", false, d)] +
                          (if "" in s.sales then [] else [SaleOpened("")])
            && t.dispensers.Keys == s.dispensers.Keys && t.orders.Keys == s.orders.Keys + {d}
  {
    hide Step, PollOrder;
    var now := Dispenser(Complete, s.dispensers[d].status, product, s.dispensers[d].orderId);
    NamelessPollIsPollOrder(s, d, product);
    NamelessOrderConfirms(SetOrder(SetDispenser(s, d, now), d, NO_ORDER.(product := product)), d);
  }

  lemma NamelessOrderConfirms(s: State, d: DispenserId)
    requires d in s.dispensers && d in s.orders && s.orders[d] == NO_ORDER.(product := s.orders[d].product)
    ensures var t := PollOrder(s, d, PolledOrder("", Delivered), false);
            && t.trace == s.trace + [OrderPolled(d)] + [PayConfirm("", false, d)] +
                          (if "" in s.sales then [] else [SaleOpened("")])
            && t.dispensers.Keys == s.dispensers.Keys && t.orders.Keys == s.orders.Keys
  {
    var v := SetOrder(NotePolled(s, d, ""), d, s.orders[d].(status := Delivered));
    var w := Finalize(v, d);
    assert w.trace == s.trace + [OrderPolled(d)] + [PayConfirm("", false, d)] && w.sales.Keys == s.sales.Keys;
    assert w.dispensers == v.dispensers && w.orders.Keys == v.orders.Keys;
    hide Finalize;
  }

  /** Polled orders without an id are confirmed for dispensers that never had an order created. */
  lemma EmptyIdsConfirmTwice(s: State, a: DispenserId, b: DispenserId, product: ProductId)
    requires a != b && {a, b} <= s.dispensers.Keys && {a, b} !! s.orders.Keys
    ensures var t := Step(Step(s, NamelessPoll(a, product)), NamelessPoll(b, product)).trace;
            Count(t, ConfirmationOf("")) == Count(s.trace, ConfirmationOf("")) + 2 &&
            Count(t, CreationOf("")) == Count(s.trace, CreationOf(""))
  {
    var u := Step(s, NamelessPoll(a, product));
    NamelessPollConfirms(s, a, product);
    NamelessPollConfirms(u, b, product);
    hide Step;
    OneConfirmation(s.trace, u.trace, a);
    OneConfirmation(u.trace, Step(u, NamelessPoll(b, product)).trace, b);
    hide Count;
  }

  lemma RegisterOneMore(s: State, ids: seq<DispenserId>, d: DispenserId)
    ensures Register(s, []) == s
    ensures Register(s, ids + [d]) ==
            AskStatus(SetDispenser(Register(s, ids), d, NEW_DISPENSER), d)
  {
    assert (ids + [d])[..|ids|] == ids;
  }

  /** Two dispensers and the products they sell. */
  function TwoLoaded(a: DispenserId, b: DispenserId, product: ProductId): seq<Event> {
    [LoadDevices([a, b])] + [LoadProducts({product})]
  }

  lemma TwoDispensers(a: DispenserId, b: DispenserId, product: ProductId)
    requires a != "" && b != ""
    ensures var s := After(TwoLoaded(a, b, product));
            && s == INITIAL.(dispensers := map[a := NEW_DISPENSER, b := NEW_DISPENSER], products := {product},
                             trace := s.trace)
            && s.trace == [DevicesLoaded, GetStatus(a), GetStatus(b)]
  {
    hide Register;
    AfterOneMore([], LoadDevices([a, b]));
    assert [] + [LoadDevices([a, b])] == [LoadDevices([a, b])];
    var start := Emit(INITIAL.(dispensers := map[]), DevicesLoaded);
    assert [] + [a] == [a] && [a] + [b] == [a, b];
    RegisterOneMore(start, [], a);
    RegisterOneMore(start, [a], b);
    AfterOneMore([LoadDevices([a, b])], LoadProducts({product}));
  }

  lemma {:induction false} CountNone(trace: seq<Output>, w: What)
    requires forall o <- trace :: !Is(w, o)
    ensures Count(trace, w) == 0
  {
    if trace != [] {
      CountNone(trace[..|trace| - 1], w);
    }
  }

  /** Both dispensers are polled while they show a delivered order without an id. */
  function NamelessPolls(): seq<Event> {
    TwoLoaded("a", "b", "92") + [NamelessPoll("a", "92")] + [NamelessPoll("b", "92")]
  }

  /** A run that confirms the empty id twice though no order was created. */
  lemma NamelessRun()
    ensures var s := After(NamelessPolls());
            Count(s.trace, ConfirmationOf("")) == 2 && Count(s.trace, CreationOf("")) == 0
  {
    hide After, Step, NamelessPoll, Count, TwoLoaded;
    var load := TwoLoaded("a", "b", "92");
    TwoDispensers("a", "b", "92");
    CountNone(After(load).trace, CreationOf(""));
    CountNone(After(load).trace, ConfirmationOf(""));
    EmptyIdsConfirmTwice(After(load), "a", "b", "92");
    AfterOneMore(load, NamelessPoll("a", "92"));
    AfterOneMore(load + [NamelessPoll("a", "92")], NamelessPoll("b", "92"));
  }

  predicate ConfirmedWithinCreations(events: seq<Event>, order: OrderId) {
    Count(After(events).trace, ConfirmationOf(order)) <= Count(After(events).trace, CreationOf(order))
  }

  /** Confirmations stay within the creations in every run if and only if the id is not empty. */
  lemma ConfirmationsBoundedIff(order: OrderId)
    ensures (forall events :: ConfirmedWithinCreations(events, order)) <==> order != ""
  {
    if order != "" {
      forall events ensures ConfirmedWithinCreations(events, order) {
        ConfirmedAtMostOncePerCreation(events, order);
      }
    } else {
      NamelessRun();
      assert !ConfirmedWithinCreations(NamelessPolls(), "");
    }
  }

  lemma OneConfirmation(before: seq<Output>, after: seq<Output>, d: DispenserId)
    requires after == before + [OrderPolled(d)] + [PayConfirm("", false, d)] ||
             after == before + [OrderPolled(d)] + [PayConfirm("", false, d)] + [SaleOpened("")]
    ensures Count(after, ConfirmationOf("")) == Count(before, ConfirmationOf("")) + 1
    ensures Count(after, CreationOf("")) == Count(before, CreationOf(""))
  {
    var polled := before + [OrderPolled(d)];
    CountsAppend("", before, OrderPolled(d));
    CountsAppend("", polled, PayConfirm("", false, d));
    CountsAppend("", polled + [PayConfirm("", false, d)], SaleOpened(""));
    hide Count;
  }

  // -------------------------------------------------------------- the ledger

  /** Conservation: the sales ever opened are those reported, those dropped, and the one pending, if any. */
  lemma SalesAreConserved(events: seq<Event>, order: OrderId)
    ensures var s := After(events);
            Count(s.trace, OpeningOf(order)) ==
            Count(s.trace, ReportOf(order)) + Count(s.trace, DropOf(order)) + if order in s.sales then 1 else 0
  {
    RunsKeepInv(Key(order, "", ""), events);
    hide After, Count;
  }

  /** FIFO: what was queued for a gauge is what was taken from its queue, in order, followed by the queue. */
  lemma TasksAreServedInOrder(events: seq<Event>, g: GaugeId)
    ensures var s := After(events);
            PushedTo(s.trace, g) == TakenFrom(s.trace, g) + Queue(s, g)
  {
    RunsKeepInv(Key("", "", g), events);
    hide After, PushedTo, TakenFrom;
  }

  // ---------------------------------------------------------- the rendezvous

  /** For the current order of every dispenser, in every run: closing and finalizing have queued one last task
      per pistol return after finalization, and one more at finalization when a return came before. */
  lemma LastTasksCounted(events: seq<Event>, d: DispenserId)
    ensures var s := After(events);
            var m, order := MeetingOf(s.trace, d), OrderOf(s, d);
            && order.id == m.id && order.finalized == m.finalized && (order.closed <==> m.before + m.after > 0)
            && m.queued == if m.finalized then m.after + (if m.before > 0 then 1 else 0) else 0
  {
    RunsKeepInv(Key("", d, ""), events);
    hide After, MeetingOf;
  }

  /** Exactly one last task once both have happened, and none before: this holds if and only if the pistol did
      not return again after both. */
  lemma ExactlyOneLastTaskIff(events: seq<Event>, d: DispenserId)
    ensures var s := After(events);
            var m, order := MeetingOf(s.trace, d), OrderOf(s, d);
            m.queued == (if order.finalized && order.closed then 1 else 0) <==>
            m.after == 0 || (m.after == 1 && m.before == 0)
  {
    RunsKeepInv(Key("", d, ""), events);
    hide After, MeetingOf;
  }

  /** With at most one return per order, whichever comes first, there is exactly one last task as soon as the order
      is both finalized and closed. */
  lemma OneReturnOneLastTask(events: seq<Event>, d: DispenserId)
    requires var m := MeetingOf(After(events).trace, d); m.before + m.after <= 1
    ensures var s := After(events);
            var m, order := MeetingOf(s.trace, d), OrderOf(s, d);
            && m.queued == (if order.finalized && order.closed then 1 else 0)
            && (m.own <==> m.strays == 0 || order.id == "")
  {
    RunsKeepInv(Key("", d, ""), events);
    hide After, MeetingOf;
  }

  /** All last tasks of an order carry its id if and only if, once it was finalized, the pistol never returned between
      a loading of the devices and the next poll that shows the order. */
  lemma LastTasksOwnIff(events: seq<Event>, d: DispenserId)
    ensures var m := MeetingOf(After(events).trace, d);
            m.own <==> m.strays == 0 || m.id == ""
  {
    RunsKeepInv(Key("", d, ""), events);
    hide After, MeetingOf;
  }

  function StatusEvent(d: DispenserId, status: DispenserStatus): Event {
    DeviceEvent(d, None, Some(StatusChange(status, None)), false, None)
  }

  /** Loading the devices, another fuelling and the pistol's return, behind whatever run. */
  function Refuelled(events: seq<Event>, d: DispenserId): seq<Event> {
    events + [LoadDevices([d])] + [StatusEvent(d, Fuelling)] + [StatusEvent(d, Idle)]
  }

  lemma ReloadedOne(s: State, d: DispenserId)
    ensures var t := Step(s, LoadDevices([d]));
            t.dispensers == map[d := NEW_DISPENSER] &&
            (t.orders, t.queues, t.tankers) == (s.orders, s.queues, s.tankers)
  {
    hide Register;
    assert [] + [d] == [d];
    RegisterOneMore(Emit(s.(dispensers := map[]), DevicesLoaded), [], d);
  }

  lemma StatusStep(s: State, d: DispenserId, c: StatusChange)
    requires d in s.dispensers
    ensures var t, u := RandomStatus(s, d, c), Step(s, DeviceEvent(d, None, Some(c), false, None));
            (u.orders, u.queues, u.tankers, u.trace) == (t.orders, t.queues, t.tankers, t.trace) &&
            u.dispensers.Keys == t.dispensers.Keys && d in t.dispensers &&
            (u.dispensers[d].status, u.dispensers[d].orderId) == (t.dispensers[d].status, t.dispensers[d].orderId) &&
            (c.nozzle.None? ==> u.dispensers[d].product == t.dispensers[d].product)
  {
    hide RandomStatus, SelectedStatus;
    PrimeCauses.SecondHandlerOnlyShiftsStatus(s, d, c);
    PrimeCauses.StatusStored(s, d, c);
  }

  lemma FuellingStored(s: State, d: DispenserId)
    requires d in s.dispensers
    ensures var t := RandomStatus(s, d, StatusChange(Fuelling, None));
            t == SetDispenser(s, d, s.dispensers[d].(status := Fuelling, prev := s.dispensers[d].status))
  {
  }

  /** Such a return queues a task that names no order at all, whatever order was finalized before. */
  lemma StrayReturnQueuesNamelessTask(events: seq<Event>, d: DispenserId)
    requires OrderOf(After(events), d).finalized
    ensures var s, t := After(events), After(Refuelled(events, d));
            var g := GaugeFor(s.tankers, "");
            Queue(t, g) == Queue(s, g) + [Task("", d, AfterFuelling)]
  {
    hide Step, After, RandomStatus;
    var s := After(events);
    AfterOneMore(events, LoadDevices([d]));
    ReloadedOne(s, d);
    var u := Step(s, LoadDevices([d]));
    AfterOneMore(events + [LoadDevices([d])], StatusEvent(d, Fuelling));
    StatusStep(u, d, StatusChange(Fuelling, None));
    FuellingStored(u, d);
    var v := Step(u, StatusEvent(d, Fuelling));
    AfterOneMore(events + [LoadDevices([d])] + [StatusEvent(d, Fuelling)], StatusEvent(d, Idle));
    StatusStep(v, d, StatusChange(Idle, None));
    ReturnedNameless(v, d);
  }

  lemma ReturnedNameless(s: State, d: DispenserId)
    requires d in s.dispensers && s.dispensers[d].status == Fuelling && OrderOf(s, d).finalized
    ensures var was := s.dispensers[d];
            var g := GaugeFor(s.tankers, was.product);
            Queue(RandomStatus(s, d, StatusChange(Idle, None)), g) ==
            Queue(s, g) + [Task(was.orderId, d, AfterFuelling)]
  {
    hide GaugeFor;
  }

  /** An order created and delivered on a dispenser. */
  function Delivery(d: DispenserId, id: OrderId, product: ProductId): seq<Event> {
    [LoadDevices([d])] + [LoadProducts({product})] + [ChooseDispenser(d, true)] +
    [DeviceEvent(d, None, None, false, Some(id))] +
    [StatusPoll(d, Complete, Some(product), Some(PolledOrder(id, Delivered)), false)]
  }

  lemma FinalizedOrder(s: State, d: DispenserId)
    requires d in s.orders
    ensures var t := Finalize(s, d);
            d in t.orders && t.orders[d] == s.orders[d].(finalized := true)
  {
    hide SettleSale, Push, GaugeFor;
    var order := s.orders[d];
    PrimeCauses.SettleFrame(s, order);
    var v := SetOrder(SettleSale(s, order), d, order.(finalized := true));
    OrdersOfPush(v, GaugeFor(v.tankers, order.product), Task(order.id, d, AfterFuelling), AtFinalization);
  }

  lemma OrdersOfPush(s: State, g: GaugeId, task: Task, origin: Origin)
    ensures Push(s, g, task, origin).orders == s.orders
  {
  }

  lemma OrdersOfPayment(s: State, id: OrderId)
    ensures CreatePayment(OpenSale(s, id), id, false).orders == s.orders
  {
  }

  lemma DeliveredIsFinalized(s: State, d: DispenserId, id: OrderId, product: ProductId)
    requires d in s.dispensers && d in s.orders && s.orders[d].id == id
    ensures var t := Step(s, StatusPoll(d, Complete, Some(product), Some(PolledOrder(id, Delivered)), false));
            d in t.orders && t.orders[d].id == id && t.orders[d].finalized
  {
    hide Finalize, OpenSale, CreatePayment;
    var stored := StorePoll(s, d, Complete, Some(product));
    var u := SetOrder(NotePolled(stored, d, id), d, stored.orders[d].(status := Delivered));
    FinalizedOrder(u, d);
    OrdersOfPayment(Finalize(u, d), id);
  }

  lemma OrderCreatedStep(s: State, d: DispenserId, id: OrderId)
    requires d == s.current
    ensures var t := Step(s, DeviceEvent(d, None, None, false, Some(id)));
            d in t.orders && t.orders[d] == NO_ORDER.(id := id) && t.dispensers == s.dispensers
  {
  }

  lemma DeliveryFinalizes(d: DispenserId, id: OrderId, product: ProductId)
    ensures var order := OrderOf(After(Delivery(d, id, product)), d);
            order.id == id && order.finalized
  {
    hide Step, After;
    var e1, e2, e3 := LoadDevices([d]), LoadProducts({product}), ChooseDispenser(d, true);
    var e4 := DeviceEvent(d, None, None, false, Some(id));
    AfterOneMore([], e1);
    assert [] + [e1] == [e1];
    AfterOneMore([e1], e2);
    AfterOneMore([e1] + [e2], e3);
    AfterOneMore([e1] + [e2] + [e3], e4);
    AfterOneMore([e1] + [e2] + [e3] + [e4],
                 StatusPoll(d, Complete, Some(product), Some(PolledOrder(id, Delivered)), false));
    ReloadedOne(After([]), d);
    ProductsLoaded(After([e1]), product);
    ChosenIdle(After([e1] + [e2]), d);
    OrderCreatedStep(After([e1] + [e2] + [e3]), d, id);
    DeliveredIsFinalized(After([e1] + [e2] + [e3] + [e4]), d, id, product);
  }

  lemma ProductsLoaded(s: State, product: ProductId)
    ensures var t := Step(s, LoadProducts({product}));
            t == s.(products := s.products + {product}) && t.products != {}
  {
    assert product in s.products + {product};
  }

  lemma ChosenIdle(s: State, d: DispenserId)
    requires d in s.dispensers && s.dispensers[d].status == Idle && s.products != {}
    ensures Step(s, ChooseDispenser(d, true)) == s.(current := d)
  {
  }

  /** So the exception is reached: this run queues a last task for an order that does not name it. */
  lemma StrayRun(d: DispenserId, id: OrderId, product: ProductId)
    requires id != ""
    ensures var s := After(Refuelled(Delivery(d, id, product), d));
            OrderOf(s, d).id == id && Task("", d, AfterFuelling) in Queue(s, GaugeFor(s.tankers, ""))
  {
    hide Step, After, Delivery;
    DeliveryFinalizes(d, id, product);
    StrayReturnQueuesNamelessTask(Delivery(d, id, product), d);
    RefuelledKeepsOrder(Delivery(d, id, product), d);
  }

  lemma RefuelledKeepsOrder(events: seq<Event>, d: DispenserId)
    ensures var s, t := After(events), After(Refuelled(events, d));
            OrderOf(t, d).id == OrderOf(s, d).id && t.tankers == s.tankers
  {
    hide Step, After, RandomStatus;
    var s := After(events);
    AfterOneMore(events, LoadDevices([d]));
    ReloadedOne(s, d);
    var u := Step(s, LoadDevices([d]));
    AfterOneMore(events + [LoadDevices([d])], StatusEvent(d, Fuelling));
    StatusStep(u, d, StatusChange(Fuelling, None));
    var v := Step(u, StatusEvent(d, Fuelling));
    AfterOneMore(events + [LoadDevices([d])] + [StatusEvent(d, Fuelling)], StatusEvent(d, Idle));
    PrimeCauses.StatusStored(u, d, StatusChange(Fuelling, None));
    StatusStep(v, d, StatusChange(Idle, None));
    RandomKeepsId(u, d, StatusChange(Fuelling, None));
    RandomKeepsId(v, d, StatusChange(Idle, None));
  }

  lemma RandomKeepsId(s: State, d: DispenserId, c: StatusChange)
    ensures OrderOf(RandomStatus(s, d, c), d).id == OrderOf(s, d).id && RandomStatus(s, d, c).tankers == s.tankers
  {
    hide GaugeFor, Queue;
  }

  // ------------------------------------------------------------ the handshake

  /** Both flags are never set between steps, and they tell what happened since the latest AUTHORIZE; every
      AUTHORIZE follows an order creation and a touch since the previous one, without delay. */
  lemma HandshakeInEveryRun(events: seq<Event>)
    ensures var s := After(events);
            && Handshaken(s.trace) && (s.serverReady, s.touched) == Since(s.trace)
            && !(s.serverReady && s.touched)
  {
    RunsKeepInv(Key("", "", ""), events);
    hide After, Handshaken, Since;
  }

  lemma {:induction false} HandshakeCounts(trace: seq<Output>)
    requires Handshaken(trace)
    ensures Count(trace, AnyAuthorization) + (if Since(trace).0 then 1 else 0) <= Count(trace, AnyCreation)
    ensures Count(trace, AnyAuthorization) + (if Since(trace).1 then 1 else 0) <= Count(trace, AnyTouch)
  {
    if trace != [] {
      HandshakeCounts(trace[..|trace| - 1]);
    }
  }

  /** No more AUTHORIZE commands than orders created, nor than touches. */
  lemma AuthorizationsAreBounded(events: seq<Event>)
    ensures var t := After(events).trace;
            && Count(t, AnyAuthorization) <= Count(t, AnyCreation)
            && Count(t, AnyAuthorization) <= Count(t, AnyTouch)
  {
    HandshakeInEveryRun(events);
    HandshakeCounts(After(events).trace);
    hide After, Count, Handshaken, Since;
  }

  /** A part of the history with both an order creation and a touch. */
  predicate HasBoth(part: seq<Output>) {
    Count(part, AnyCreation) > 0 && Count(part, AnyTouch) > 0
  }

  /** The history can be cut into `k` parts that each have an order creation and a touch. */
  ghost predicate CanCut(trace: seq<Output>, k: nat)
    decreases k
  {
    k == 0 || exists n | 0 <= n <= |trace| :: HasBoth(trace[n..]) && CanCut(trace[..n], k - 1)
  }

  /** AUTHORIZE commands issued in a history, counting the one that is due at its end. */
  function Credit(trace: seq<Output>): nat {
    Count(trace, AnyAuthorization) + if Since(trace) == (true, true) then 1 else 0
  }

  lemma {:induction false} HandshakenBefore(before: seq<Output>, part: seq<Output>)
    requires Handshaken(before + part)
    ensures Handshaken(before)
    decreases |part|
  {
    if part == [] {
      assert before + part == before;
    } else {
      var less, o := part[..|part| - 1], part[|part| - 1];
      assert part == less + [o];
      Associate(before, less, o);
      HandshakenAppend(before + less, o);
      HandshakenBefore(before, less);
    }
  }

  /** Behind a history `before`, through a part: either the credit grew, or whatever the part shows is remembered. */
  ghost predicate GrewOrRemembers(before: seq<Output>, part: seq<Output>) {
    var now := before + part;
    && Credit(before) <= Credit(now)
    && (Credit(before) == Credit(now) ==>
          && (Count(part, AnyCreation) > 0 ==> Since(now).0) && (Count(part, AnyTouch) > 0 ==> Since(now).1)
          && (Since(now) == (true, true) ==> part == []))
  }

  lemma {:induction false} CreditThrough(before: seq<Output>, part: seq<Output>)
    requires Handshaken(before + part)
    ensures GrewOrRemembers(before, part)
    decreases |part|
  {
    hide Count, Since, Handshaken, Credit, GrewOrRemembers;
    if part == [] {
      NothingGrew(before);
    } else {
      var less, o := part[..|part| - 1], part[|part| - 1];
      assert part == less + [o];
      Associate(before, less, o);
      HandshakenAppend(before + less, o);
      CreditThrough(before, less);
      CreditOne(before, less, o);
    }
  }

  lemma NothingGrew(before: seq<Output>)
    ensures GrewOrRemembers(before, [])
  {
    hide Since;
    assert before + [] == before;
  }

  lemma NothingCounted(w: What)
    ensures Count([], w) == 0
  {
  }

  lemma Associate(before: seq<Output>, less: seq<Output>, o: Output)
    ensures before + (less + [o]) == before + less + [o]
    ensures less == [] ==> before + less == before
  {
  }

  lemma CreditOne(before: seq<Output>, less: seq<Output>, o: Output)
    requires Handshaken(before + less + [o]) && GrewOrRemembers(before, less)
    ensures GrewOrRemembers(before, less + [o])
  {
    hide Count, Since, Handshaken;
    NothingCounted(AnyCreation);
    NothingCounted(AnyTouch);
    Associate(before, less, o);
    HandshakenAppend(before + less, o);
    CountAppend(before + less, o, AnyAuthorization);
    CountAppend(less, o, AnyCreation);
    CountAppend(less, o, AnyTouch);
  }

  lemma HandshakenAppend(trace: seq<Output>, o: Output)
    requires Handshaken(trace + [o])
    ensures Handshaken(trace) && (o.Authorize? <==> Since(trace) == (true, true))
    ensures Since(trace + [o]) == (match o
                                   case Authorize(_) => (false, false)
                                   case OrderCreated(_, _) => (true, Since(trace).1)
                                   case BeginTouched => (Since(trace).0, true)
                                   case _ => Since(trace))
  {
    HistoryAppend(Key("", "", ""), trace, o);
  }

  lemma NoCut(trace: seq<Output>)
    ensures CanCut(trace, 0)
  {
  }

  lemma BothIsNotNothing(part: seq<Output>)
    requires HasBoth(part)
    ensures part != []
  {
  }

  lemma OpenCut(trace: seq<Output>, k: nat) returns (before: seq<Output>, part: seq<Output>)
    requires CanCut(trace, k) && k > 0
    ensures trace == before + part && HasBoth(part) && CanCut(before, k - 1)
  {
    var n :| 0 <= n <= |trace| && HasBoth(trace[n..]) && CanCut(trace[..n], k - 1);
    before, part := trace[..n], trace[n..];
    hide CanCut, HasBoth;
  }

  lemma {:induction false} CutsEarnCredit(trace: seq<Output>, k: nat)
    requires Handshaken(trace) && CanCut(trace, k)
    ensures k <= Credit(trace)
    decreases k
  {
    hide Since, Handshaken, Credit, CanCut, Count;
    if k > 0 {
      var before, part := OpenCut(trace, k);
      HandshakenBefore(before, part);
      CutsEarnCredit(before, k - 1);
      CreditThrough(before, part);
      BothIsNotNothing(part);
    }
  }

  lemma FreshMemory(trace: seq<Output>)
    requires trace == [] || trace[|trace| - 1].Authorize?
    ensures Since(trace) == (false, false) && trace == trace + []
  {
  }

  /** What is remembered at the end of a history did happen after its latest AUTHORIZE. */
  lemma {:induction false} Remembered(trace: seq<Output>) returns (before: seq<Output>, part: seq<Output>)
    ensures trace == before + part && Count(before, AnyAuthorization) == Count(trace, AnyAuthorization)
    ensures Since(trace).0 ==> Count(part, AnyCreation) > 0
    ensures Since(trace).1 ==> Count(part, AnyTouch) > 0
  {
    hide Count, Since;
    if trace == [] || trace[|trace| - 1].Authorize? {
      before, part := trace, [];
      FreshMemory(trace);
    } else {
      var less, o := trace[..|trace| - 1], trace[|trace| - 1];
      assert trace == less + [o];
      var p;
      before, p := Remembered(less);
      part := p + [o];
      RememberOne(less, p, o);
      Associate(before, p, o);
    }
  }

  lemma RememberOne(less: seq<Output>, part: seq<Output>, o: Output)
    requires !o.Authorize?
    requires Since(less).0 ==> Count(part, AnyCreation) > 0
    requires Since(less).1 ==> Count(part, AnyTouch) > 0
    ensures Count(less + [o], AnyAuthorization) == Count(less, AnyAuthorization)
    ensures Since(less + [o]).0 ==> Count(part + [o], AnyCreation) > 0
    ensures Since(less + [o]).1 ==> Count(part + [o], AnyTouch) > 0
  {
    hide Count, Since;
    CountAppend(part, o, AnyCreation);
    CountAppend(part, o, AnyTouch);
    CountAppend(less, o, AnyAuthorization);
    HistoryAppend(Key("", "", ""), less, o);
  }

  lemma CutBehind(before: seq<Output>, part: seq<Output>, k: nat)
    requires HasBoth(part) && CanCut(before, k)
    ensures CanCut(before + part, k + 1)
  {
    var trace, n := before + part, |before|;
    assert trace[n..] == part && trace[..n] == before;
    hide Count;
  }

  lemma LongerCut(trace: seq<Output>, o: Output, k: nat)
    requires CanCut(trace, k)
    ensures CanCut(trace + [o], k)
  {
    hide CanCut, Count;
    if k > 0 {
      var before, part := OpenCut(trace, k);
      CountAppend(part, o, AnyCreation);
      CountAppend(part, o, AnyTouch);
      assert trace + [o] == before + (part + [o]);
      CutBehind(before, part + [o], k - 1);
    } else {
      NoCut(trace + [o]);
    }
  }

  lemma {:induction false} AuthorizationsCut(trace: seq<Output>, k: nat)
    requires Handshaken(trace) && k <= Count(trace, AnyAuthorization)
    ensures CanCut(trace, k)
    decreases |trace|
  {
    hide Count, Since, Handshaken, CanCut;
    NothingCounted(AnyAuthorization);
    if k == 0 {
      NoCut(trace);
    } else {
      var less, o := trace[..|trace| - 1], trace[|trace| - 1];
      assert trace == less + [o];
      HandshakenAppend(less, o);
      CountAppend(less, o, AnyAuthorization);
      if o.Authorize? {
        var before, part := Remembered(less);
        HandshakenBefore(before, part);
        AuthorizationsCut(before, k - 1);
        CutBehind(before, part, k - 1);
      } else {
        AuthorizationsCut(less, k);
      }
      LongerCut(less, o, k);
    }
  }

  /** The handshake loses and invents nothing: in every run the number of AUTHORIZE commands is the greatest number
      of parts, each with an order creation and a touch, into which the history can be cut. */
  lemma AuthorizationsAreMaximal(events: seq<Event>, k: nat)
    ensures CanCut(After(events).trace, k) <==> k <= Count(After(events).trace, AnyAuthorization)
  {
    var trace := After(events).trace;
    HandshakeInEveryRun(events);
    hide After;
    if CanCut(trace, k) {
      CutsEarnCredit(trace, k);
    }
    if k <= Count(trace, AnyAuthorization) {
      AuthorizationsCut(trace, k);
    }
  }
}
