/** How a finished sale reaches the report: from the handler that queues its last gauge task, through the answers of
  the gauge, to the report of just this sale with just this type. */
module PrimeReports {
  import opened Basics
  import opened PrimeModel
  import opened PrimeCauses
  import opened PrimeRuns
  import opened PrimeService

  /** So many answers of one gauge. */
  function Answers(s: State, g: GaugeId, n: nat): State
    decreases n
  {
    if n == 0 then s else Answers(AnswerGauge(s, g), g, n - 1)
  }

  lemma ReportIssued(s: State, g: GaugeId)
    requires Queue(s, g) != [] && Reportable(s, Queue(s, g)[0])
    ensures var o := Queue(s, g)[0].order;
            Issued(s, AnswerGauge(s, g), ReportSale(o, s.sales[o]))
  {
    hide Queue, AnswerGauge;
    ServesAndReports(s, g);
    var o := Queue(s, g)[0].order;
    assert AnswerGauge(s, g).trace[|s.trace| + 1] == ReportSale(o, s.sales[o]);
  }

  lemma NothingWaits(s: State, g: GaugeId, n: nat)
    requires Queue(s, g) == []
    ensures Answers(s, g, n) == s
    decreases n
  {
    if n > 0 {
      assert AnswerGauge(s, g) == s;
      NothingWaits(s, g, n - 1);
    }
  }

  lemma {:induction false} FirstIsOnLedger(s: State, tasks: seq<Task>)
    ensures FirstReportable(s, tasks).Some? ==> FirstReportable(s, tasks).value in s.sales
  {
    if tasks != [] {
      FirstIsOnLedger(s, tasks[1..]);
    }
  }

  /** When every task of a gauge has been answered, exactly one sale has been reported and taken off the ledger: that
      of the first reportable task; the tasks behind it were thrown away. */
  lemma {:induction false} AnswersReportFirst(s: State, g: GaugeId, n: nat)
    requires n >= |Queue(s, g)|
    ensures var t, first := Answers(s, g, n), FirstReportable(s, Queue(s, g));
            && Queue(t, g) == [] && s.trace <= t.trace
            && (first.None? ==> t.sales == s.sales)
            && (first.Some? ==> first.value in s.sales && t.sales == s.sales - {first.value} &&
                                Issued(s, t, ReportSale(first.value, s.sales[first.value])))
    decreases n
  {
    hide AnswerGauge, Queue, Issued;
    var q, t := Queue(s, g), AnswerGauge(s, g);
    FirstIsOnLedger(s, q);
    if q == [] {
      NothingWaits(s, g, n);
    } else if Reportable(s, q[0]) {
      ServesAndReports(s, g);
      ReportIssued(s, g);
      NothingWaits(t, g, n - 1);
    } else {
      ServesQuietly(s, g);
      SameLedger(s, t, q[1..]);
      AnswersReportFirst(t, g, n - 1);
      var o := FirstReportable(s, q);
      if o.Some? {
        IssuedBetween(s, t, Answers(s, g, n), Answers(s, g, n), ReportSale(o.value, s.sales[o.value]));
      }
    }
  }

  // ------------------------------------------ where the last tasks come from

  /** The task is queued last for the gauge, everything in front of it is as it was. */
  predicate QueuedLast(s: State, t: State, g: GaugeId, task: Task) {
    Queue(t, g) == Queue(s, g) + [task]
  }

  /** No other sale is reported, and its report does not throw away what waits behind it. */
  predicate WayIsFree(s: State, g: GaugeId, o: OrderId) {
    FirstReportable(s, Queue(s, g)).None? || FirstReportable(s, Queue(s, g)) == Some(o)
  }

  /** The gauge's answers to all its tasks get the sale reported as it stands in `t`. */
  predicate GetsReported(t: State, g: GaugeId, o: OrderId) {
    o in t.sales && o !in Answers(t, g, |Queue(t, g)|).sales &&
    Issued(t, Answers(t, g, |Queue(t, g)|), ReportSale(o, t.sales[o]))
  }

  /** Whatever else happens meanwhile, as long as it leaves the waiting orders alone: the gauge's answers to all its
      tasks report the sale so many times. */
  ghost predicate ReportedTimes(t: State, g: GaugeId, o: OrderId, times: nat) {
    forall more | Undisturbed(t, more, g, OrdersOf(Queue(t, g))) && AnswersOf(more, g) >= |Queue(t, g)| ::
      Count(Through(t, more).trace, ReportOf(o)) == Count(t.trace, ReportOf(o)) + times
  }

  lemma ReportedFirstOnly(t: State, g: GaugeId, o: OrderId)
    requires o in OrdersOf(Queue(t, g))
    ensures ReportedTimes(t, g, o, if FirstReportable(t, Queue(t, g)) == Some(o) then 1 else 0)
  {
    hide Queue, Count, Through, Undisturbed, FirstReportable, OrdersOf;
    var q := Queue(t, g);
    forall more | Undisturbed(t, more, g, OrdersOf(q)) && AnswersOf(more, g) >= |q|
      ensures Count(Through(t, more).trace, ReportOf(o)) ==
              Count(t.trace, ReportOf(o)) + if FirstReportable(t, q) == Some(o) then 1 else 0
    {
      ServedInAnyInterleaving(t, more, g, q, OrdersOf(q), o);
    }
  }

  /** The sale of the task queued last is reported as it stands by the gauge's own answers if and only if the way is
      free; and then exactly once, otherwise never, in every continuation that leaves the waiting orders alone. */
  lemma LastIsReportedIff(s: State, t: State, g: GaugeId, task: Task)
    requires QueuedLast(s, t, g, task) && Reportable(t, task) && t.sales.Keys == s.sales.Keys
    ensures GetsReported(t, g, task.order) <==> WayIsFree(s, g, task.order)
    ensures ReportedTimes(t, g, task.order, if WayIsFree(s, g, task.order) then 1 else 0)
  {
    hide Queue, Issued, Answers, ReportedTimes;
    var q := Queue(s, g);
    FirstOfLonger(t, q, task);
    SameLedger(s, t, q);
    AnswersReportFirst(t, g, |q| + 1);
    assert task in Queue(t, g);
    ReportedFirstOnly(t, g, task.order);
  }

  lemma PushedLast(s: State, g: GaugeId, task: Task, origin: Origin)
    ensures var t := Push(s, g, task, origin);
            QueuedLast(s, t, g, task) && (t.sales, t.orders, t.trace) ==
            (s.sales, s.orders, s.trace + [TaskPushed(g, task, origin)] + [GetParameters(g)])
  {
  }

  lemma SaleTypeSet(s: State, o: OrderId, saleType: SaleType)
    ensures var t := SetSaleType(s, o, saleType);
            && (t.queues, t.trace, t.orders, t.tankers) == (s.queues, s.trace, s.orders, s.tankers)
            && t.sales.Keys == s.sales.Keys
            && (o in s.sales ==> t.sales[o] == saleType)
  {
  }

  /** A sale cancelled by the customer is reported as reverted, if and only if the way is free; the cancellation also
      asks for a refund receipt, revokes the payment, closes the order and clears the card, in this order. */
  lemma CancelledIsRevertedIff(s: State)
    requires s.current != "" && s.current in s.orders && s.orders[s.current].product in s.products
    requires s.orders[s.current].id in s.sales
    ensures var order := s.orders[s.current];
            var g, t := GaugeFor(s.tankers, order.product), CancelTransaction(s);
            && t.trace[|t.trace| - 4..] == [PrintRefund(order.id), CancelRequest, Close(s.current), ClearCard]
            && order.id in t.sales && t.sales[order.id] == Revert
            && (GetsReported(t, g, order.id) <==> WayIsFree(s, g, order.id))
            && ReportedTimes(t, g, order.id, if WayIsFree(s, g, order.id) then 1 else 0)
  {
    hide Push, SetSaleType, Queue, GetsReported, ReportedTimes, WayIsFree;
    var order := s.orders[s.current];
    var g, task := GaugeFor(s.tankers, order.product), Task(order.id, s.current, AfterFuelling);
    var r := SetSaleType(s, order.id, Revert);
    SaleTypeSet(s, order.id, Revert);
    PushedLast(r, g, task, AtCancellation);
    SameQueue(s, r, g);
    SameQueue(Push(r, g, task, AtCancellation), CancelTransaction(s), g);
    LastIsReportedIff(s, CancelTransaction(s), g, task);
  }

  lemma SameQueue(s: State, t: State, g: GaugeId)
    ensures s.queues == t.queues ==> Queue(s, g) == Queue(t, g)
    ensures s.queues == t.queues && s.sales.Keys == t.sales.Keys ==>
              forall o :: WayIsFree(s, g, o) <==> WayIsFree(t, g, o)
  {
    if s.queues == t.queues && s.sales.Keys == t.sales.Keys {
      SameLedger(s, t, Queue(s, g));
    }
  }

  /** What a finished order's sale is reported as. */
  function SettledType(s: State, order: Order): SaleType {
    if order.status == Interrupted && order.product in s.products then Partial else Full
  }

  lemma SettledSale(s: State, order: Order)
    requires order.id in s.sales
    ensures var t := SettleSale(s, order);
            && t.sales.Keys == s.sales.Keys && t.sales[order.id] == SettledType(s, order)
            && (t.queues, t.orders, t.tankers) == (s.queues, s.orders, s.tankers)
  {
    hide SetSaleType;
    var t := SetSaleType(s, order.id, Full);
    SaleTypeSet(s, order.id, Full);
    SaleTypeSet(t, order.id, Partial);
  }

  /** Finalization behind the pistol's return: the sale is settled, in full or in part, and so reported if and only
      if the way is free. */
  lemma ClosedThenFinalizedIsReportedIff(s: State, d: DispenserId)
    requires d in s.orders && s.orders[d].closed && !s.orders[d].finalized && s.orders[d].id in s.sales
    ensures var order := s.orders[d];
            var g, t := GaugeFor(s.tankers, order.product), Finalize(s, d);
            && order.id in t.sales && t.sales[order.id] == SettledType(s, order)
            && (GetsReported(t, g, order.id) <==> WayIsFree(s, g, order.id))
            && ReportedTimes(t, g, order.id, if WayIsFree(s, g, order.id) then 1 else 0)
  {
    hide Push, SettleSale, Queue, GetsReported, ReportedTimes, WayIsFree, SettledType;
    var order := s.orders[d];
    var g, task := GaugeFor(s.tankers, order.product), Task(order.id, d, AfterFuelling);
    var r := SettleSale(s, order);
    var v := SetOrder(r, d, order.(finalized := true));
    SettledSale(s, order);
    PushedLast(v, g, task, AtFinalization);
    SameQueue(s, v, g);
    SameQueue(Push(v, g, task, AtFinalization), Finalize(s, d), g);
    LastIsReportedIff(s, Finalize(s, d), g, task);
  }

  /** Finalization before the pistol's return: the sale keeps the type it was settled with, and the return, which
      closes the order at the controller first, gets it reported if and only if the way is free. */
  lemma FinalizedThenClosedIsReportedIff(s: State, d: DispenserId, now: Dispenser)
    requires d in s.orders && s.orders[d].finalized && s.orders[d].id == now.orderId && now.orderId in s.sales
    ensures var g, t := GaugeFor(s.tankers, now.product), ReturnPistol(s, d, now);
            && t.trace[|s.trace|] == Close(d) && t.sales == s.sales
            && (GetsReported(t, g, now.orderId) <==> WayIsFree(s, g, now.orderId))
            && ReportedTimes(t, g, now.orderId, if WayIsFree(s, g, now.orderId) then 1 else 0)
  {
    hide Push, Queue, GetsReported, ReportedTimes, WayIsFree;
    var v := MarkReturned(Emit(s, Close(d)), d);
    var g, task := GaugeFor(v.tankers, now.product), Task(now.orderId, d, AfterFuelling);
    PushedLast(v, g, task, AtClosing);
    SameQueue(s, v, g);
    LastIsReportedIff(s, ReturnPistol(s, d, now), g, task);
  }

  /** The first reading of an order that waits last at a gauge survives, in every continuation with an answer for each
      task before it that leaves the waiting orders alone, if and only if none of these answers reports a sale. */
  ghost predicate ReadingSurvives(t: State, g: GaugeId, task: Task) {
    forall more | Undisturbed(t, more, g, OrdersOf(Queue(t, g))) && AnswersOf(more, g) == |Queue(t, g)| - 1 ::
      [task] <= Queue(Through(t, more), g)
  }

  ghost predicate ReadingIsLost(t: State, g: GaugeId, task: Task) {
    forall more | Undisturbed(t, more, g, OrdersOf(Queue(t, g))) && AnswersOf(more, g) == |Queue(t, g)| - 1 ::
      forall other <- Queue(Through(t, more), g) :: other.order != task.order
  }

  lemma ReadingSurvivesUnlessReported(t: State, g: GaugeId, q: seq<Task>, task: Task)
    requires Queue(t, g) == q + [task]
    ensures if FirstReportable(t, q).None? then ReadingSurvives(t, g, task) else ReadingIsLost(t, g, task)
  {
    hide Queue, Through, Undisturbed, FirstReportable, OrdersOf, Left, ReportedBy, Count;
    var all := q + [task];
    assert task in all;
    OrdersKnown(all);
    LeftOfLonger(t, q, task);
    forall more | Undisturbed(t, more, g, OrdersOf(Queue(t, g))) && AnswersOf(more, g) == |Queue(t, g)| - 1
      ensures FirstReportable(t, q).None? ==> [task] <= Queue(Through(t, more), g)
      ensures FirstReportable(t, q).Some? ==> forall other <- Queue(Through(t, more), g) :: other.order != task.order
    {
      ServedInAnyInterleaving(t, more, g, all, OrdersOf(all), task.order);
    }
  }

  lemma {:induction false} AnswersServe(t: State, g: GaugeId, q: seq<Task>, task: Task)
    requires Queue(t, g) == q + [task]
    ensures Queue(Answers(t, g, |q|), g) == if FirstReportable(t, q).None? then [task] else []
    decreases |q|
  {
    hide AnswerGauge, Queue;
    if q != [] {
      var u := AnswerGauge(t, g);
      if Reportable(t, q[0]) {
        ServesAndReports(t, g);
        NothingWaits(u, g, |q| - 1);
      } else {
        ServesQuietly(t, g);
        assert (q + [task])[1..] == q[1..] + [task];
        SameLedger(t, u, q[1..]);
        AnswersServe(u, g, q[1..], task);
      }
    }
  }

  /** Authorization of an order opens its sale and queues its first reading, behind whatever waits at the gauge.  The
      reading comes to be served if and only if no answer before it reports a sale, which would throw it away. */
  lemma AuthorizedOrderIsReadIff(s: State, d: DispenserId)
    ensures var order := OrderOf(s, d);
            var g, t := GaugeFor(s.tankers, order.product), ChangeOrder(s, d, OrderChange(Some(OrderAuthorized)));
            var q, task := Queue(s, g), Task(order.id, d, BeforeFuelling);
            && order.id in t.sales && Queue(t, g) == q + [task]
            && (Queue(Answers(t, g, |q|), g) == [task] <==> FirstReportable(t, q).None?)
            && if FirstReportable(t, q).None? then ReadingSurvives(t, g, task) else ReadingIsLost(t, g, task)
  {
    hide Push, Queue, OpenSale, AnswerGauge, FirstReportable, ReadingSurvives, ReadingIsLost;
    var order := OrderOf(s, d);
    var r := SetOrder(s, d, order.(status := OrderAuthorized));
    var g, task := GaugeFor(s.tankers, order.product), Task(order.id, d, BeforeFuelling);
    OpenedSale(r, order.id);
    PushedLast(OpenSale(r, order.id), g, task, AtAuthorization);
    SameQueue(s, OpenSale(r, order.id), g);
    var t := ChangeOrder(s, d, OrderChange(Some(OrderAuthorized)));
    AnswersServe(t, g, Queue(s, g), task);
    ReadingSurvivesUnlessReported(t, g, Queue(s, g), task);
  }

  lemma OpenedSale(s: State, o: OrderId)
    ensures o in OpenSale(s, o).sales && OpenSale(s, o).queues == s.queues
  {
  }

  // ------------------------------------------------------- reported once more

  function Reports(events: seq<Event>, o: OrderId): nat {
    Count(After(events).trace, ReportOf(o))
  }

  lemma OpeningNeedsCause(s: State, e: Event, o: OrderId)
    ensures Count(Step(s, e).trace, OpeningOf(o)) > Count(s.trace, OpeningOf(o)) ==> AsksForSale(s, e, o)
  {
    hide Step, Count, AsksForSale;
    var t := Step(s, e);
    EveryOutputIsCaused(s, e);
    if !AsksForSale(s, e, o) {
      forall i | |s.trace| <= i < |t.trace| ensures !Is(OpeningOf(o), t.trace[i]) {
        NotOpened(s, e, o);
      }
      CountSame(s.trace, t.trace, OpeningOf(o));
    }
  }

  lemma NotOpened(s: State, e: Event, o: OrderId)
    requires !AsksForSale(s, e, o)
    ensures !Cause(s, e, SaleOpened(o))
  {
  }

  lemma AnswerReportsOne(s: State, g: GaugeId, o: OrderId)
    ensures var t := AnswerGauge(s, g);
            Count(t.trace, ReportOf(o)) > Count(s.trace, ReportOf(o)) ==>
              o in s.sales && o !in t.sales && Count(t.trace, ReportOf(o)) == Count(s.trace, ReportOf(o)) + 1
  {
    hide AnswerGauge, Count;
    var q := Queue(s, g);
    if q == [] {
      NobodyServed(s, g);
    } else if Reportable(s, q[0]) {
      ServesAndReports(s, g);
      ReportCount(s.trace, g, q[0], s.sales[q[0].order], q[1..], o);
    } else {
      ServesQuietly(s, g);
      QuietCount(s.trace, g, q[0], o);
    }
  }

  /** A step reports a sale only once, and takes it off the ledger. */
  lemma StepReportsOne(s: State, e: Event, o: OrderId)
    ensures Count(Step(s, e).trace, ReportOf(o)) > Count(s.trace, ReportOf(o)) ==>
              o in s.sales && o !in Step(s, e).sales &&
              Count(Step(s, e).trace, ReportOf(o)) == Count(s.trace, ReportOf(o)) + 1
  {
    hide Step, Cause, Count, AnswerGauge;
    var t := Step(s, e);
    if e.GaugeAnswer? {
      GaugeStep(s, e.gauge);
      AnswerReportsOne(s, e.gauge, o);
    } else {
      EveryOutputIsCaused(s, e);
      OnlyAnswersReport(s, e, o);
      CountSame(s.trace, t.trace, ReportOf(o));
    }
  }

  lemma OnlyAnswersReport(s: State, e: Event, o: OrderId)
    requires !e.GaugeAnswer? && AddsCaused(s, e, Step(s, e))
    ensures forall i | |s.trace| <= i < |Step(s, e).trace| :: !Is(ReportOf(o), Step(s, e).trace[i])
  {
    hide Step;
  }

  lemma AppearsOnlyWhenAsked(events: seq<Event>, e: Event, o: OrderId)
    requires o !in After(events).sales && o in After(events + [e]).sales
    ensures AsksForSale(After(events), e, o)
  {
    hide Step, After, Count, AsksForSale, Cause;
    AfterOneMore(events, e);
    var s := After(events);
    EveryOutputIsCaused(s, e);
    CountGrows(s.trace, Step(s, e).trace, ReportOf(o));
    CountGrows(s.trace, Step(s, e).trace, DropOf(o));
    RunsKeepInv(Key(o, "", ""), events);
    RunsKeepInv(Key(o, "", ""), events + [e]);
    assert LedgerBalanced(s, o) && LedgerBalanced(Step(s, e), o);
    OpeningNeedsCause(s, e, o);
  }

  /** The event at `n` opens the sale again behind a report of it. */
  predicate Reopens(events: seq<Event>, n: nat, o: OrderId)
    requires n < |events|
  {
    var s := After(events[..n]);
    Reports(events[..n], o) > 0 && o !in s.sales && AsksForSale(s, events[n], o)
  }

  lemma {:induction false} PendingWasReopened(events: seq<Event>, o: OrderId) returns (n: nat)
    requires Reports(events, o) > 0 && o in After(events).sales
    ensures n < |events| && Reopens(events, n, o) && Reports(events[..n], o) == Reports(events, o)
  {
    hide Step, Count, AsksForSale;
    var less, e := events[..|events| - 1], events[|events| - 1];
    assert events == less + [e];
    EveryOutputIsCaused(After(less), e);
    CountGrows(After(less).trace, After(events).trace, ReportOf(o));
    if Reports(events, o) > Reports(less, o) {
      StepReportsOne(After(less), e, o);
    }
    if o in After(less).sales {
      n := PendingWasReopened(less, o);
      assert less[..n] == events[..n];
    } else {
      n := |less|;
      AppearsOnlyWhenAsked(less, e, o);
    }
  }

  lemma NothingReported(o: OrderId)
    ensures Reports([], o) == 0
  {
  }

  lemma {:induction false} SecondReport(events: seq<Event>, o: OrderId) returns (n: nat)
    requires Reports(events, o) >= 2
    ensures n < |events| && Reopens(events, n, o) && Reports(events[..n], o) < Reports(events, o)
  {
    hide Step, Count, AsksForSale, Cause;
    NothingReported(o);
    var less, e := events[..|events| - 1], events[|events| - 1];
    EveryOutputIsCaused(After(less), e);
    CountGrows(After(less).trace, After(events).trace, ReportOf(o));
    if Reports(less, o) >= 2 {
      n := SecondReport(less, o);
    } else {
      StepReportsOne(After(less), e, o);
      n := PendingWasReopened(less, o);
    }
    assert less[..n] == events[..n];
  }

  /** An order is reported twice in a run if and only if, behind a report, some event asked for its sale once more,
      by polling the order, reporting it authorized or printing its receipt, and a report followed. */
  lemma ReportedTwiceIff(events: seq<Event>, o: OrderId)
    ensures Reports(events, o) >= 2 <==>
            exists n :: 0 <= n < |events| && Reopens(events, n, o) && Reports(events[..n], o) < Reports(events, o)
  {
    if Reports(events, o) >= 2 {
      var n := SecondReport(events, o);
    }
    hide Reports;
  }
}
