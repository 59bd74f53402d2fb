/** Runs from the start, each event of which the program can meet: a product, a tanker with one gauge and two
  dispensers are loaded, and customers fuel in the usual order.  They reach the states in which a sale or a reading is
  lost, and one in which a sale is reported twice. */
module PrimeWitnesses {
  import opened Basics
  import opened PrimeModel
  import opened PrimeRuns
  import opened PrimeCauses
  import opened PrimeTheorems
  import opened PrimeService
  import opened PrimeReports

  const FUEL: ProductId := "92"
  const GAUGE: GaugeId := "vlg1"

  /** Everything is known, and nobody waits for an authorization. */
  predicate Ready(s: State) {
    s.tankers == [Tanker(FUEL, [GAUGE])] && s.products == {FUEL} && !s.serverReady && !s.touched
  }

  predicate SameButHistory(s: State, t: State) {
    s.(trace := []) == t.(trace := [])
  }

  function Poll(d: DispenserId, id: OrderId, status: DispenserStatus, orderStatus: OrderStatus): Event {
    StatusPoll(d, status, Some(FUEL), Some(PolledOrder(id, orderStatus)), false)
  }

  function Created(d: DispenserId, id: OrderId): Event {
    DeviceEvent(d, None, None, false, Some(id))
  }

  /** Choosing a dispenser, creating an order, starting it, and the first poll of it. */
  function Begun(d: DispenserId, id: OrderId): seq<Event> {
    [ChooseDispenser(d, true)] + [Created(d, id)] + [BeginTouch] + [Poll(d, id, DispenserAuthorized, OrderAuthorized)]
  }

  function Served(d: DispenserId, id: OrderId): seq<Event> {
    Begun(d, id) + [Poll(d, id, Complete, Delivered)]
  }

  /** A whole fuelling, up to the pistol's return. */
  function Fuelled(d: DispenserId, id: OrderId): seq<Event> {
    Served(d, id) + [StatusEvent(d, Idle)]
  }

  // ---------------------------------------------------------------- the steps

  lemma FuelGauge(s: State)
    requires Ready(s)
    ensures GaugeFor(s.tankers, FUEL) == GAUGE
  {
  }

  lemma Chosen(s: State, d: DispenserId)
    requires Ready(s) && d in s.dispensers && s.dispensers[d].status == Idle
    ensures Step(s, ChooseDispenser(d, true)) == s.(current := d)
  {
    assert FUEL in s.products;
  }

  lemma CreatedStep(s: State, d: DispenserId, id: OrderId)
    requires Ready(s) && s.current == d
    ensures SameButHistory(Step(s, Created(d, id)),
                           s.(serverReady := true, orders := s.orders[d := NO_ORDER.(id := id)]))
  {
  }

  lemma BegunStep(s: State, d: DispenserId, id: OrderId)
    requires s.serverReady && s.products == {FUEL}
    requires s.current == d && d in s.orders && s.orders[d] == NO_ORDER.(id := id)
    ensures SameButHistory(Step(s, BeginTouch), s.(serverReady := false, touched := false))
  {
  }

  function Polled(s: State, d: DispenserId, status: DispenserStatus, id: OrderId): Dispenser
    requires d in s.dispensers
  {
    Dispenser(status, s.dispensers[d].status, FUEL, id)
  }

  lemma FirstPoll(s: State, d: DispenserId, id: OrderId)
    requires d in s.dispensers && d in s.orders && s.orders[d].id == id && id != ""
    requires id !in s.sales && id !in s.paid
    ensures SameButHistory(Step(s, Poll(d, id, DispenserAuthorized, OrderAuthorized)),
                           s.(dispensers := s.dispensers[d := Polled(s, d, DispenserAuthorized, id)],
                              orders := s.orders[d := s.orders[d].(product := FUEL, status := OrderAuthorized)],
                              sales := s.sales[id := Untyped], paid := s.paid + {id}))
  {
  }

  lemma LastPoll(s: State, d: DispenserId, id: OrderId)
    requires d in s.dispensers && d in s.orders && s.orders[d].id == id && !s.orders[d].finalized && !s.orders[d].closed
    requires id in s.sales && id in s.paid
    ensures SameButHistory(Step(s, Poll(d, id, Complete, Delivered)),
                           s.(dispensers := s.dispensers[d := Polled(s, d, Complete, id)],
                              orders := s.orders[d := Order(id, Delivered, FUEL, false, true)],
                              sales := s.sales[id := Full]))
  {
  }

  lemma LaterPoll(s: State, d: DispenserId, id: OrderId)
    requires d in s.dispensers && d in s.orders && s.orders[d].id == id && s.orders[d].finalized
    requires id in s.paid && id !in s.sales
    ensures SameButHistory(Step(s, Poll(d, id, Complete, Delivered)),
                           s.(dispensers := s.dispensers[d := Polled(s, d, Complete, id)],
                              orders := s.orders[d := s.orders[d].(product := FUEL, status := Delivered)],
                              sales := s.sales[id := Untyped]))
  {
  }

  lemma ReturnStep(s: State, d: DispenserId, id: OrderId)
    requires Ready(s) && d in s.dispensers && d in s.orders && s.orders[d].finalized
    requires s.dispensers[d] == Dispenser(Complete, s.dispensers[d].prev, FUEL, id)
    ensures var t := Step(s, StatusEvent(d, Idle));
            d in t.dispensers &&
            SameButHistory(t, s.(dispensers := s.dispensers[d := Dispenser(Idle, t.dispensers[d].prev, FUEL, id)],
                                 orders := s.orders[d := s.orders[d].(closed := true)],
                                 queues := s.queues[GAUGE := Queue(s, GAUGE) + [Task(id, d, AfterFuelling)]]))
  {
    hide SelectedStatus, RandomStatus;
    SecondHandlerOnlyShiftsStatus(s, d, StatusChange(Idle, None));
    FirstHandlerCloses(s, d, id);
  }

  lemma FirstHandlerCloses(s: State, d: DispenserId, id: OrderId)
    requires Ready(s) && d in s.dispensers && d in s.orders && s.orders[d].finalized
    requires s.dispensers[d] == Dispenser(Complete, s.dispensers[d].prev, FUEL, id)
    ensures SameButHistory(RandomStatus(s, d, StatusChange(Idle, None)),
                           s.(dispensers := s.dispensers[d := Dispenser(Idle, Complete, FUEL, id)],
                              orders := s.orders[d := s.orders[d].(closed := true)],
                              queues := s.queues[GAUGE := Queue(s, GAUGE) + [Task(id, d, AfterFuelling)]]))
  {
    FuelGauge(s);
  }

  // ----------------------------------------------------------- whole fuellings

  /** The dispenser can take the new order. */
  predicate Free(s: State, d: DispenserId, id: OrderId) {
    Ready(s) && d in s.dispensers && s.dispensers[d].status == Idle && id != "" && id !in s.sales && id !in s.paid
  }

  lemma BeginsOrder(s: State, d: DispenserId, id: OrderId)
    requires Free(s, d, id)
    ensures var t := Through(s, Begun(d, id));
            d in t.dispensers &&
            SameButHistory(t, s.(current := d, dispensers := s.dispensers[d := Polled(s, d, DispenserAuthorized, id)],
                                 orders := s.orders[d := Order(id, OrderAuthorized, FUEL, false, false)],
                                 sales := s.sales[id := Untyped], paid := s.paid + {id}))
  {
    hide Step;
    var e1, e2, e3 := ChooseDispenser(d, true), Created(d, id), BeginTouch;
    ThroughOneMore(s, [], e1);
    assert [] + [e1] == [e1];
    ThroughOneMore(s, [e1], e2);
    ThroughOneMore(s, [e1] + [e2], e3);
    ThroughOneMore(s, [e1] + [e2] + [e3], Poll(d, id, DispenserAuthorized, OrderAuthorized));
    Chosen(s, d);
    var chosen := Through(s, [e1]);
    CreatedStep(chosen, d, id);
    var created := Through(s, [e1] + [e2]);
    BegunStep(created, d, id);
    FirstPoll(Through(s, [e1] + [e2] + [e3]), d, id);
  }

  lemma ServesOrder(s: State, d: DispenserId, id: OrderId)
    requires Free(s, d, id)
    ensures var t := Through(s, Served(d, id));
            d in t.dispensers && t.dispensers[d] == Dispenser(Complete, DispenserAuthorized, FUEL, id) &&
            SameButHistory(t, s.(current := d, dispensers := s.dispensers[d := t.dispensers[d]],
                                 orders := s.orders[d := Order(id, Delivered, FUEL, false, true)],
                                 sales := s.sales[id := Full], paid := s.paid + {id}))
  {
    hide Step;
    BeginsOrder(s, d, id);
    ThroughOneMore(s, Begun(d, id), Poll(d, id, Complete, Delivered));
    hide Begun;
    LastPoll(Through(s, Begun(d, id)), d, id);
  }

  lemma FuelsOrder(s: State, d: DispenserId, id: OrderId)
    requires Free(s, d, id)
    ensures var t := Through(s, Fuelled(d, id));
            d in t.dispensers && t.dispensers[d] == Dispenser(Idle, t.dispensers[d].prev, FUEL, id) &&
            SameButHistory(t, s.(current := d, dispensers := s.dispensers[d := t.dispensers[d]],
                                 orders := s.orders[d := Order(id, Delivered, FUEL, true, true)],
                                 queues := s.queues[GAUGE := Queue(s, GAUGE) + [Task(id, d, AfterFuelling)]],
                                 sales := s.sales[id := Full], paid := s.paid + {id}))
  {
    hide Step;
    ServesOrder(s, d, id);
    ThroughOneMore(s, Served(d, id), StatusEvent(d, Idle));
    hide Served;
    ReturnStep(Through(s, Served(d, id)), d, id);
  }

  /** The start of every run here. */
  function Loaded(): seq<Event> {
    TwoLoaded("a", "b", FUEL) + [LoadTankers([Tanker(FUEL, [GAUGE])])]
  }

  lemma LoadedState()
    ensures var s := After(Loaded());
            SameButHistory(s, INITIAL.(dispensers := map["a" := NEW_DISPENSER, "b" := NEW_DISPENSER],
                                       products := {FUEL}, tankers := [Tanker(FUEL, [GAUGE])]))
    ensures Ready(After(Loaded())) && forall o :: Count(After(Loaded()).trace, ReportOf(o)) == 0
  {
    TwoDispensers("a", "b", FUEL);
    AfterOneMore(TwoLoaded("a", "b", FUEL), LoadTankers([Tanker(FUEL, [GAUGE])]));
    hide After;
    forall o ensures Count(After(Loaded()).trace, ReportOf(o)) == 0 {
      CountNone(After(Loaded()).trace, ReportOf(o));
    }
  }

  // --------------------------------------------------------------- lost sales

  /** Two customers fuel; before the second one's pistol is back, the first one's sale waits for the gauge. */
  function BothServed(): seq<Event> {
    Loaded() + Fuelled("a", "A") + Served("b", "B")
  }

  lemma BothServedState()
    ensures var s := After(BothServed());
            && Ready(s) && s.sales == map["A" := Full, "B" := Full]
            && Queue(s, GAUGE) == [Task("A", "a", AfterFuelling)]
            && "b" in s.orders && s.orders["b"] == Order("B", Delivered, FUEL, false, true)
            && "b" in s.dispensers && s.dispensers["b"] == Dispenser(Complete, DispenserAuthorized, FUEL, "B")
  {
    hide Step, After, Fuelled, Served, Loaded;
    LoadedState();
    RunsContinue(Loaded(), Fuelled("a", "A"));
    FuelsOrder(After(Loaded()), "a", "A");
    RunsContinue(Loaded() + Fuelled("a", "A"), Served("b", "B"));
    ServesOrder(After(Loaded() + Fuelled("a", "A")), "b", "B");
  }

  lemma BlockedByOther(s: State, o: OrderId, other: OrderId, d: DispenserId)
    requires Queue(s, GAUGE) == [Task(other, d, AfterFuelling)] && other in s.sales && other != o
    ensures !WayIsFree(s, GAUGE, o) && FirstReportable(s, Queue(s, GAUGE)) == Some(other)
  {
    FirstOfOne(s, Task(other, d, AfterFuelling));
  }

  /** The second one's sale is lost in this run: two tasks wait for the gauge, its first answer reports the first sale
      and throws the other task away, and the second sale stays in the ledger with nothing left to report it. */
  lemma LostSaleRun()
    ensures var s, t := After(BothServed()), After(BothServed() + [StatusEvent("b", Idle)]);
            var u := After(BothServed() + [StatusEvent("b", Idle)] + [GaugeAnswer(GAUGE)]);
            && !WayIsFree(s, GAUGE, "B")
            && Queue(t, GAUGE) == [Task("A", "a", AfterFuelling), Task("B", "b", AfterFuelling)]
            && ReportedTimes(t, GAUGE, "B", 0)
            && Queue(u, GAUGE) == [] && u.sales == map["B" := Full]
            && Count(u.trace, ReportOf("B")) == Count(t.trace, ReportOf("B"))
  {
    hide Step, After, BothServed, AnswerGauge, Count, ReportedTimes;
    BothServedState();
    var s := After(BothServed());
    BlockedByOther(s, "B", "A", "a");
    AfterOneMore(BothServed(), StatusEvent("b", Idle));
    ReturnStep(s, "b", "B");
    var t := After(BothServed() + [StatusEvent("b", Idle)]);
    AfterOneMore(BothServed() + [StatusEvent("b", Idle)], GaugeAnswer(GAUGE));
    LastIsReportedIff(s, t, GAUGE, Task("B", "b", AfterFuelling));
    GaugeStep(t, GAUGE);
    ServesAndReports(t, GAUGE);
    ReportCount(t.trace, GAUGE, Task("A", "a", AfterFuelling), Full, Queue(t, GAUGE)[1..], "B");
  }

  // ------------------------------------------------------------- lost readings

  /** While the first one's sale waits, another order is begun. */
  function SecondBegun(): seq<Event> {
    Loaded() + Fuelled("a", "A") + Begun("b", "B")
  }

  function AuthorizedEvent(d: DispenserId): Event {
    DeviceEvent(d, Some(OrderChange(Some(OrderAuthorized))), None, false, None)
  }

  lemma OnlyOrderChanges(s: State, d: DispenserId)
    ensures Step(s, AuthorizedEvent(d)) == ChangeOrder(s, d, OrderChange(Some(OrderAuthorized)))
  {
  }

  /** The second order's first reading is lost in this run: it waits behind the first one's last task. */
  lemma LostReadingRun()
    ensures var s, t := After(SecondBegun()), After(SecondBegun() + [AuthorizedEvent("b")]);
            var u := After(SecondBegun() + [AuthorizedEvent("b")] + [GaugeAnswer(GAUGE)]);
            && Queue(s, GAUGE) == [Task("A", "a", AfterFuelling)]
            && Queue(t, GAUGE) == [Task("A", "a", AfterFuelling), Task("B", "b", BeforeFuelling)]
            && ReadingIsLost(t, GAUGE, Task("B", "b", BeforeFuelling))
            && Queue(u, GAUGE) == [] && u.sales.Keys == {"B"}
  {
    hide Step, After, SecondBegun, AnswerGauge, ReadingIsLost, ReadingSurvives, ChangeOrder, FirstReportable;
    SecondBegunState();
    var s := After(SecondBegun());
    BlockedByOther(s, "B", "A", "a");
    FuelGauge(s);
    AfterOneMore(SecondBegun(), AuthorizedEvent("b"));
    OnlyOrderChanges(s, "b");
    AuthorizedOrderIsReadIff(s, "b");
    AuthorizedKeepsSales(s, "b");
    var t := After(SecondBegun() + [AuthorizedEvent("b")]);
    SameLedger(s, t, Queue(s, GAUGE));
    AfterOneMore(SecondBegun() + [AuthorizedEvent("b")], GaugeAnswer(GAUGE));
    GaugeStep(t, GAUGE);
    ServesAndReports(t, GAUGE);
  }

  lemma AuthorizedKeepsSales(s: State, d: DispenserId)
    requires OrderOf(s, d).id in s.sales
    ensures ChangeOrder(s, d, OrderChange(Some(OrderAuthorized))).sales == s.sales
  {
    hide Queue, GaugeFor;
  }

  lemma SecondBegunState()
    ensures var s := After(SecondBegun());
            && Ready(s) && s.sales == map["A" := Full, "B" := Untyped]
            && Queue(s, GAUGE) == [Task("A", "a", AfterFuelling)]
            && OrderOf(s, "b").id == "B" && OrderOf(s, "b").product == FUEL
  {
    hide Step, After, Fuelled, Begun, Loaded;
    LoadedState();
    RunsContinue(Loaded(), Fuelled("a", "A"));
    FuelsOrder(After(Loaded()), "a", "A");
    RunsContinue(Loaded() + Fuelled("a", "A"), Begun("b", "B"));
    BeginsOrder(After(Loaded() + Fuelled("a", "A")), "b", "B");
  }

  // ------------------------------------------------------------ double reports

  /** A sale is reported, a later poll shows the order once more, the pistol moves once more, and the gauge answers. */
  function ReportedAgain(): seq<Event> {
    Loaded() + Fuelled("a", "A") + [GaugeAnswer(GAUGE)] + [Poll("a", "A", Complete, Delivered)] +
    [StatusEvent("a", Idle)] + [GaugeAnswer(GAUGE)]
  }

  lemma AnswerReports(s: State, id: OrderId, d: DispenserId)
    requires Queue(s, GAUGE) == [Task(id, d, AfterFuelling)] && id in s.sales
    ensures var t := Step(s, GaugeAnswer(GAUGE));
            && SameButHistory(t, s.(sales := s.sales - {id}, queues := s.queues - {GAUGE}))
            && Count(t.trace, ReportOf(id)) == Count(s.trace, ReportOf(id)) + 1
  {
    hide Count;
    ServesAndReports(s, GAUGE);
    ReportCount(s.trace, GAUGE, Task(id, d, AfterFuelling), s.sales[id], [], id);
  }

  lemma StepGrows(s: State, e: Event, w: What)
    ensures Count(s.trace, w) <= Count(Step(s, e).trace, w)
  {
    hide Step, Cause, Count;
    EveryOutputIsCaused(s, e);
    CountGrows(s.trace, Step(s, e).trace, w);
  }

  /** The sale of one order is reported twice in this run, the second time without a type. */
  lemma ReportedTwiceRun()
    ensures Count(After(ReportedAgain()).trace, ReportOf("A")) >= 2
    ensures ReportSale("A", Untyped) in After(ReportedAgain()).trace
  {
    hide Step, After, Count, Fuelled, Loaded;
    LoadedState();
    RunsContinue(Loaded(), Fuelled("a", "A"));
    FuelsOrder(After(Loaded()), "a", "A");
    var r1 := Loaded() + Fuelled("a", "A");
    var r2 := r1 + [GaugeAnswer(GAUGE)];
    var r3 := r2 + [Poll("a", "A", Complete, Delivered)];
    var r4 := r3 + [StatusEvent("a", Idle)];
    AfterOneMore(r1, GaugeAnswer(GAUGE));
    AnswerReports(After(r1), "A", "a");
    AfterOneMore(r2, Poll("a", "A", Complete, Delivered));
    LaterPoll(After(r2), "a", "A");
    StepGrows(After(r2), Poll("a", "A", Complete, Delivered), ReportOf("A"));
    AfterOneMore(r3, StatusEvent("a", Idle));
    ReturnStep(After(r3), "a", "A");
    StepGrows(After(r3), StatusEvent("a", Idle), ReportOf("A"));
    AfterOneMore(r4, GaugeAnswer(GAUGE));
    AnswerReports(After(r4), "A", "a");
    AnswerSays(After(r4), "A", "a");
  }

  lemma AnswerSays(s: State, id: OrderId, d: DispenserId)
    requires Queue(s, GAUGE) == [Task(id, d, AfterFuelling)] && id in s.sales
    ensures ReportSale(id, s.sales[id]) in Step(s, GaugeAnswer(GAUGE)).trace
  {
    hide AnswerGauge;
    ServesAndReports(s, GAUGE);
  }
}
