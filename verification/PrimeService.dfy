/** How the answers of a gauge serve the tasks that wait for it, whatever happens between the answers. */
module PrimeService {
  import opened Basics
  import opened PrimeModel
  import opened PrimeCauses
  import opened PrimeRuns

  /** A task whose answer reports a sale. */
  predicate Reportable(s: State, task: Task) {
    task.kind == AfterFuelling && task.order in s.sales
  }

  /** The order of the first task whose answer reports a sale. */
  function FirstReportable(s: State, tasks: seq<Task>): Option<OrderId> {
    if tasks == [] then None
    else if Reportable(s, tasks[0]) then Some(tasks[0].order)
    else FirstReportable(s, tasks[1..])
  }

  lemma {:induction false} SameLedger(s: State, t: State, tasks: seq<Task>)
    requires forall task <- tasks :: task.order in s.sales <==> task.order in t.sales
    ensures FirstReportable(s, tasks) == FirstReportable(t, tasks)
  {
    if tasks != [] {
      assert tasks[0] in tasks;
      SameLedger(s, t, tasks[1..]);
    }
  }

  lemma {:induction false} FirstOfLonger(s: State, tasks: seq<Task>, task: Task)
    ensures FirstReportable(s, tasks + [task]) ==
            if FirstReportable(s, tasks).Some? then FirstReportable(s, tasks)
            else if Reportable(s, task) then Some(task.order) else None
  {
    if tasks != [] {
      assert (tasks + [task])[1..] == tasks[1..] + [task];
      FirstOfLonger(s, tasks[1..], task);
    }
  }

  /** What is left of the tasks after `n` answers, when a report throws away the rest. */
  function Left(s: State, tasks: seq<Task>, n: nat): seq<Task> {
    if n == 0 || tasks == [] then tasks
    else if Reportable(s, tasks[0]) then []
    else Left(s, tasks[1..], n - 1)
  }

  /** The order that the first `n` answers report, if any. */
  function ReportedBy(s: State, tasks: seq<Task>, n: nat): Option<OrderId> {
    FirstReportable(s, if n < |tasks| then tasks[..n] else tasks)
  }

  lemma {:induction false} LeftOfLonger(s: State, tasks: seq<Task>, task: Task)
    ensures Left(s, tasks + [task], |tasks|) == if FirstReportable(s, tasks).None? then [task] else []
  {
    if tasks != [] {
      assert (tasks + [task])[1..] == tasks[1..] + [task];
      LeftOfLonger(s, tasks[1..], task);
    }
  }

  // ------------------------------------------------------------- one answer

  lemma ServesQuietly(s: State, g: GaugeId)
    requires Queue(s, g) != [] && !Reportable(s, Queue(s, g)[0])
    ensures var t := AnswerGauge(s, g);
            Queue(t, g) == Queue(s, g)[1..] && t.sales == s.sales &&
            t.trace == s.trace + [TaskPopped(g, Queue(s, g)[0])]
  {
  }

  lemma ServesAndReports(s: State, g: GaugeId)
    requires Queue(s, g) != [] && Reportable(s, Queue(s, g)[0])
    ensures var t, task := AnswerGauge(s, g), Queue(s, g)[0];
            Queue(t, g) == [] && t.sales == s.sales - {task.order} &&
            t.trace == s.trace + [TaskPopped(g, task)] + [ReportSale(task.order, s.sales[task.order])] +
                       [TasksDiscarded(g, Queue(s, g)[1..])]
  {
  }

  lemma NobodyServed(s: State, g: GaugeId)
    requires Queue(s, g) == []
    ensures AnswerGauge(s, g) == s
  {
  }

  lemma QuietCount(trace: seq<Output>, g: GaugeId, task: Task, o: OrderId)
    ensures Count(trace + [TaskPopped(g, task)], ReportOf(o)) == Count(trace, ReportOf(o))
  {
    CountAppend(trace, TaskPopped(g, task), ReportOf(o));
  }

  lemma ReportCount(trace: seq<Output>, g: GaugeId, task: Task, saleType: SaleType, rest: seq<Task>, o: OrderId)
    ensures Count(trace + [TaskPopped(g, task)] + [ReportSale(task.order, saleType)] + [TasksDiscarded(g, rest)],
                  ReportOf(o)) ==
            Count(trace, ReportOf(o)) + if task.order == o then 1 else 0
  {
    var a := trace + [TaskPopped(g, task)];
    var b := a + [ReportSale(task.order, saleType)];
    CountAppend(trace, TaskPopped(g, task), ReportOf(o));
    CountAppend(a, ReportSale(task.order, saleType), ReportOf(o));
    CountAppend(b, TasksDiscarded(g, rest), ReportOf(o));
  }

  // ---------------------------------------- all other events only queue more

  predicate Longer(s: State, t: State, g: GaugeId) {
    Queue(s, g) <= Queue(t, g)
  }

  lemma LongerChain(s: State, t: State, u: State, g: GaugeId)
    requires Longer(s, t, g) && Longer(t, u, g)
    ensures Longer(s, u, g)
  {
  }

  lemma SameQueues(s: State, t: State, g: GaugeId)
    requires s.queues == t.queues
    ensures Longer(s, t, g) && Queue(s, g) == Queue(t, g)
  {
  }

  lemma QueuesOfPieces(s: State, d: DispenserId, id: OrderId, saleType: SaleType)
    ensures AskStatus(s, d).queues == OpenSale(s, id).queues == SetSaleType(s, id, saleType).queues == s.queues
  {
  }

  lemma PushIsLonger(s: State, at: GaugeId, task: Task, origin: Origin, g: GaugeId)
    ensures Longer(s, Push(s, at, task, origin), g)
  {
  }

  lemma ChangeOrderIsLonger(s: State, d: DispenserId, c: OrderChange, g: GaugeId)
    ensures Longer(s, ChangeOrder(s, d, c), g)
  {
    hide Longer, AskStatus, OpenSale, Push, GaugeFor;
    var order := OrderOf(s, d);
    var t := SetOrder(s, d, if c.status.Some? then order.(status := c.status.value) else order);
    QueuesOfPieces(t, d, order.id, Untyped);
    SameQueues(s, t, g);
    SameQueues(s, AskStatus(t, d), g);
    SameQueues(s, OpenSale(t, order.id), g);
    var at, task := GaugeFor(t.tankers, order.product), Task(order.id, d, BeforeFuelling);
    PushIsLonger(OpenSale(t, order.id), at, task, AtAuthorization, g);
    LongerChain(s, OpenSale(t, order.id), Push(OpenSale(t, order.id), at, task, AtAuthorization), g);
  }

  lemma RandomStatusIsLonger(s: State, d: DispenserId, c: StatusChange, g: GaugeId)
    ensures Longer(s, RandomStatus(s, d, c), g)
  {
    hide Longer, Push, GaugeFor;
    SameQueues(s, s, g);
    if d in s.dispensers {
      var was := s.dispensers[d];
      var now := Dispenser(c.status, was.status, if c.nozzle.Some? then c.nozzle.value else was.product, was.orderId);
      var t := SetDispenser(s, d, now);
      var u := MarkReturned(Emit(t, Close(d)), d);
      SameQueues(s, t, g);
      SameQueues(s, u, g);
      var at, task := GaugeFor(u.tankers, now.product), Task(now.orderId, d, AfterFuelling);
      PushIsLonger(u, at, task, AtClosing, g);
      LongerChain(s, u, Push(u, at, task, AtClosing), g);
    }
  }

  lemma QueuesOfCreation(s: State, d: DispenserId, id: OrderId)
    ensures CreateOrder(s, d, id).queues == s.queues
  {
  }

  lemma DeviceEventIsLonger(s: State, e: Event, g: GaugeId)
    requires e.DeviceEvent?
    ensures Longer(s, ProcessDeviceEvent(s, e), g)
  {
    hide Longer, ChangeOrder, RandomStatus, SelectedStatus, CreateOrder;
    var d := e.dispenser;
    var t := if e.orderChange.Some? then ChangeOrder(s, d, e.orderChange.value) else s;
    SameQueues(s, s, g);
    if e.orderChange.Some? {
      ChangeOrderIsLonger(s, d, e.orderChange.value, g);
    }
    if e.statusChange.Some? {
      var u := RandomStatus(t, d, e.statusChange.value);
      RandomStatusIsLonger(t, d, e.statusChange.value, g);
      LongerChain(s, t, u, g);
      SecondHandlerOnlyShiftsStatus(t, d, e.statusChange.value);
      SameQueues(u, SelectedStatus(u, d, e.statusChange.value), g);
      LongerChain(s, u, SelectedStatus(u, d, e.statusChange.value), g);
    } else if e.created.Some? {
      QueuesOfCreation(t, d, e.created.value);
      SameQueues(t, CreateOrder(t, d, e.created.value), g);
      LongerChain(s, t, CreateOrder(t, d, e.created.value), g);
    }
  }

  lemma QueuesOfSettling(s: State, order: Order)
    ensures SettleSale(s, order).queues == s.queues
  {
    hide SetSaleType;
    QueuesOfPieces(s, "", order.id, Full);
    QueuesOfPieces(SetSaleType(s, order.id, Full), "", order.id, Partial);
  }

  lemma FinalizeIsLonger(s: State, d: DispenserId, g: GaugeId)
    ensures Longer(s, Finalize(s, d), g)
  {
    hide Longer, SettleSale, Push, GaugeFor;
    SameQueues(s, s, g);
    var order := OrderOf(s, d);
    QueuesOfSettling(s, order);
    SettleFrame(s, order);
    var v := SetOrder(SettleSale(s, order), d, order.(finalized := true));
    var at, task := GaugeFor(v.tankers, order.product), Task(order.id, d, AfterFuelling);
    PushIsLonger(v, at, task, AtFinalization, g);
    SameQueues(s, v, g);
    LongerChain(s, v, Push(v, at, task, AtFinalization), g);
    if !order.finalized {
      var w := if order.closed then Push(v, at, task, AtFinalization) else v;
      SameQueues(w, Finalize(s, d), g);
      LongerChain(s, w, Finalize(s, d), g);
    }
  }

  lemma QueuesOfPayment(s: State, id: OrderId, refused: bool)
    ensures CreatePayment(s, id, refused).queues == s.queues
  {
  }

  lemma PollOrderIsLonger(s: State, d: DispenserId, p: PolledOrder, refused: bool, g: GaugeId)
    requires d in s.dispensers
    ensures Longer(s, PollOrder(s, d, p, refused), g)
  {
    hide Longer, Finalize, OpenSale, CreatePayment;
    SameQueues(s, Emit(s, Close(d)), g);
    if d in s.orders && s.orders[d].id == p.id {
      var u := SetOrder(NotePolled(s, d, p.id), d, s.orders[d].(status := p.status));
      var v := if p.status == Interrupted || p.status == Delivered then Finalize(u, d) else u;
      SameQueues(s, u, g);
      SameQueues(u, u, g);
      FinalizeIsLonger(u, d, g);
      LongerChain(s, u, v, g);
      QueuesOfPieces(v, "", p.id, Untyped);
      QueuesOfPayment(OpenSale(v, p.id), p.id, refused);
      SameQueues(v, PollOrder(s, d, p, refused), g);
      LongerChain(s, v, PollOrder(s, d, p, refused), g);
    }
  }

  lemma QueuesOfStoring(s: State, d: DispenserId, status: DispenserStatus, nozzle: Option<ProductId>)
    requires d in s.dispensers
    ensures StorePoll(s, d, status, nozzle).queues == s.queues
  {
  }

  lemma PollIsLonger(s: State, e: Event, g: GaugeId)
    requires e.StatusPoll?
    ensures Longer(s, Step(s, e), g)
  {
    hide Longer, StorePoll, PollOrder;
    SameQueues(s, s, g);
    if e.dispenser in s.dispensers {
      var t := StorePoll(s, e.dispenser, e.status, e.nozzle);
      QueuesOfStoring(s, e.dispenser, e.status, e.nozzle);
      SameQueues(s, t, g);
      if e.polled.Some? {
        PollOrderIsLonger(t, e.dispenser, e.polled.value, e.paymentRefused, g);
        LongerChain(s, t, Step(s, e), g);
      }
    }
  }

  lemma CancelIsLonger(s: State, g: GaugeId)
    ensures Longer(s, CancelTransaction(s), g)
  {
    hide Longer, Push, SetSaleType, GaugeFor;
    SameQueues(s, s, g);
    if s.current in s.orders {
      var order := s.orders[s.current];
      var u := SetSaleType(s, order.id, Revert);
      var at, task := GaugeFor(s.tankers, order.product), Task(order.id, s.current, AfterFuelling);
      QueuesOfPieces(s, "", order.id, Revert);
      SameQueues(s, u, g);
      PushIsLonger(u, at, task, AtCancellation, g);
      LongerChain(s, u, Push(u, at, task, AtCancellation), g);
      var t := if order.id in s.sales then Push(u, at, task, AtCancellation) else s;
      if s.current != "" && order.product in s.products {
        SameQueues(t, CancelTransaction(s), g);
        LongerChain(s, t, CancelTransaction(s), g);
      }
    }
  }

  lemma {:induction false} QueuesOfRegistering(s: State, ids: seq<DispenserId>)
    ensures Register(s, ids).queues == s.queues
  {
    hide AskStatus;
    if ids != [] {
      var d, t := ids[|ids| - 1], Register(s, ids[..|ids| - 1]);
      QueuesOfRegistering(s, ids[..|ids| - 1]);
      QueuesOfPieces(SetDispenser(t, d, NEW_DISPENSER), d, "", Untyped);
    }
  }

  lemma QueuesOfTouch(s: State)
    ensures TouchBegin(s).queues == s.queues
  {
  }

  lemma OtherGaugeSame(s: State, at: GaugeId, g: GaugeId)
    requires at != g
    ensures Longer(s, AnswerGauge(s, at), g)
  {
  }

  lemma QueuesOfFailure(s: State, id: OrderId)
    ensures FailPayment(s, id).queues == s.queues
  {
  }

  /** Only its own answers take tasks from a gauge's queue; all other events leave it alone or queue more. */
  lemma OthersOnlyQueueMore(s: State, e: Event, g: GaugeId)
    requires e != GaugeAnswer(g)
    ensures Queue(s, g) <= Queue(Step(s, e), g)
  {
    hide Queue, TouchBegin, CancelTransaction, ProcessDeviceEvent, PollStatus, AnswerGauge, Register, FailPayment;
    assert Longer(s, Step(s, e), g) by {
      hide Longer;
      SameQueues(s, s, g);
      match e
      case BeginTouch => QueuesOfTouch(s); SameQueues(s, Step(s, e), g);
      case CancelTouch => CancelIsLonger(s, g);
      case DeviceEvent(_, _, _, _, _) => DeviceEventIsLonger(s, e, g);
      case StatusPoll(_, _, _, _, _) => PollIsLonger(s, e, g);
      case GaugeAnswer(at) => OtherGaugeSame(s, at, g);
      case PaymentAnswer(id, _) => QueuesOfFailure(s, id); SameQueues(s, Step(s, e), g);
      case LoadDevices(ids) =>
        QueuesOfRegistering(Emit(s.(dispensers := map[]), DevicesLoaded), ids);
        SameQueues(s, Step(s, e), g);
      case _ => SameQueues(s, Step(s, e), g);
    }
  }

  // ----------------------------------------------------------- continuations

  function OrdersOf(tasks: seq<Task>): set<OrderId> {
    set task <- tasks :: task.order
  }

  /** The answers of one gauge among the events. */
  function AnswersOf(more: seq<Event>, g: GaugeId): nat {
    if more == [] then 0 else AnswersOf(more[1..], g) + if more[0] == GaugeAnswer(g) then 1 else 0
  }

  /** No sale of these orders was opened, dropped or reported, and no task for them was queued behind the others. */
  predicate LeavesAlone(s: State, t: State, g: GaugeId, orders: set<OrderId>) {
    && (forall o <- orders :: o in s.sales <==> o in t.sales)
    && (forall i | |Queue(s, g)| <= i < |Queue(t, g)| :: Queue(t, g)[i].order !in orders)
  }

  /** Between the answers of the gauge, anything may happen that leaves these orders alone. */
  predicate Undisturbed(s: State, more: seq<Event>, g: GaugeId, orders: set<OrderId>)
    decreases |more|
  {
    more != [] ==>
      var t := Step(s, more[0]);
      (more[0] == GaugeAnswer(g) || LeavesAlone(s, t, g, orders)) && Undisturbed(t, more[1..], g, orders)
  }

  lemma {:induction false} CountSame(before: seq<Output>, after: seq<Output>, w: What)
    requires before <= after && forall i | |before| <= i < |after| :: !Is(w, after[i])
    ensures Count(after, w) == Count(before, w)
    decreases |after|
  {
    if |after| == |before| {
      assert after == before;
    } else {
      CountSame(before, after[..|after| - 1], w);
    }
  }

  lemma AnswerTakesSale(s: State, g: GaugeId, o: OrderId, saleType: SaleType)
    requires Cause(s, GaugeAnswer(g), ReportSale(o, saleType))
    ensures o in s.sales && o !in AnswerGauge(s, g).sales
  {
  }

  lemma ReportNeedsCause(s: State, e: Event, o: OrderId, saleType: SaleType)
    requires Cause(s, e, ReportSale(o, saleType))
    ensures e.GaugeAnswer?
  {
  }

  lemma LeftAloneNotReported(s: State, e: Event, g: GaugeId, orders: set<OrderId>, o: OrderId)
    requires LeavesAlone(s, Step(s, e), g, orders) && o in orders
    ensures Count(Step(s, e).trace, ReportOf(o)) == Count(s.trace, ReportOf(o))
  {
    hide Step, Cause, Count, Queue, AnswerGauge;
    var t := Step(s, e);
    EveryOutputIsCaused(s, e);
    forall i | |s.trace| <= i < |t.trace| ensures !Is(ReportOf(o), t.trace[i]) {
      var x := t.trace[i];
      if x.ReportSale? && x.order == o {
        ReportNeedsCause(s, e, o, x.saleType);
        AnswerTakesSale(s, e.gauge, o, x.saleType);
        GaugeStep(s, e.gauge);
      }
    }
    CountSame(s.trace, t.trace, ReportOf(o));
  }

  lemma GaugeStep(s: State, g: GaugeId)
    ensures Step(s, GaugeAnswer(g)) == AnswerGauge(s, g)
  {
  }

  /** The first tasks of the queue, and behind them none for these orders. */
  predicate Ahead(s: State, g: GaugeId, tasks: seq<Task>, orders: set<OrderId>) {
    tasks <= Queue(s, g) && forall i | |tasks| <= i < |Queue(s, g)| :: Queue(s, g)[i].order !in orders
  }

  lemma StillAhead(s: State, e: Event, g: GaugeId, tasks: seq<Task>, orders: set<OrderId>)
    requires Ahead(s, g, tasks, orders) && LeavesAlone(s, Step(s, e), g, orders) && e != GaugeAnswer(g)
    ensures Ahead(Step(s, e), g, tasks, orders)
  {
    OthersOnlyQueueMore(s, e, g);
    hide Step, Queue;
  }

  /** One answer, seen from the tasks ahead. */
  lemma AnswerAhead(s: State, g: GaugeId, tasks: seq<Task>, orders: set<OrderId>, o: OrderId)
    requires Ahead(s, g, tasks, orders) && OrdersOf(tasks) <= orders && o in orders
    ensures var t := AnswerGauge(s, g);
            && Ahead(t, g, Left(s, tasks, 1), orders)
            && Count(t.trace, ReportOf(o)) ==
               Count(s.trace, ReportOf(o)) + (if ReportedBy(s, tasks, 1) == Some(o) then 1 else 0)
            && (ReportedBy(s, tasks, 1).None? ==> forall x <- orders :: x in s.sales <==> x in t.sales)
  {
    hide AnswerGauge, Queue, Count;
    var q := Queue(s, g);
    OneServed(s, tasks);
    if q == [] {
      NobodyServed(s, g);
    } else if Reportable(s, q[0]) {
      ServesAndReports(s, g);
      ReportCount(s.trace, g, q[0], s.sales[q[0].order], q[1..], o);
    } else {
      ServesQuietly(s, g);
      QuietCount(s.trace, g, q[0], o);
    }
  }

  lemma OneServed(s: State, tasks: seq<Task>)
    ensures ReportedBy(s, tasks, 1) == if tasks != [] && Reportable(s, tasks[0]) then Some(tasks[0].order) else None
    ensures Left(s, tasks, 1) == if tasks == [] || Reportable(s, tasks[0]) then [] else tasks[1..]
    ensures tasks != [] ==> tasks[0].order in OrdersOf(tasks) && OrdersOf(tasks[1..]) <= OrdersOf(tasks)
  {
    if tasks != [] {
      FirstOfOne(s, tasks[0]);
      assert (if 1 < |tasks| then tasks[..1] else tasks) == [tasks[0]];
    }
  }

  lemma FirstOfOne(s: State, task: Task)
    ensures FirstReportable(s, [task]) == if Reportable(s, task) then Some(task.order) else None
  {
    assert [task][1..] == [];
  }

  lemma {:induction false} LeftAfterOne(s: State, t: State, tasks: seq<Task>, n: nat)
    requires n > 0
    requires ReportedBy(s, tasks, 1).None? ==> forall task <- tasks :: task.order in s.sales <==> task.order in t.sales
    ensures Left(s, tasks, n) == Left(t, Left(s, tasks, 1), n - 1)
    ensures ReportedBy(s, tasks, n) ==
            if ReportedBy(s, tasks, 1).Some? then ReportedBy(s, tasks, 1) else ReportedBy(t, Left(s, tasks, 1), n - 1)
  {
    OneServed(s, tasks);
    if tasks != [] && !Reportable(s, tasks[0]) {
      var rest := tasks[1..];
      SameLeft(s, t, rest, n - 1);
      var part := if n < |tasks| then tasks[..n] else tasks;
      assert part[1..] == if n - 1 < |rest| then rest[..n - 1] else rest;
      SameLedger(s, t, part[1..]);
    }
  }

  lemma {:induction false} SameLeft(s: State, t: State, tasks: seq<Task>, n: nat)
    requires forall task <- tasks :: task.order in s.sales <==> task.order in t.sales
    ensures Left(s, tasks, n) == Left(t, tasks, n)
  {
    if n > 0 && tasks != [] {
      assert tasks[0] in tasks;
      SameLeft(s, t, tasks[1..], n - 1);
    }
  }

  lemma OrdersKnown(tasks: seq<Task>)
    ensures forall task <- tasks :: task.order in OrdersOf(tasks)
  {
  }

  lemma LeftOrders(s: State, tasks: seq<Task>, orders: set<OrderId>)
    requires OrdersOf(tasks) <= orders
    ensures OrdersOf(Left(s, tasks, 1)) <= orders
  {
    OneServed(s, tasks);
  }

  /** In every continuation that leaves the waiting orders alone between the answers, what is left of the tasks and
      which sale was reported, exactly once, depends on the number of answers only. */
  lemma {:induction false} ServedInAnyInterleaving(s: State, more: seq<Event>, g: GaugeId, tasks: seq<Task>,
                                                   orders: set<OrderId>, o: OrderId)
    requires Ahead(s, g, tasks, orders) && OrdersOf(tasks) <= orders && o in orders
    requires Undisturbed(s, more, g, orders)
    ensures var t, n := Through(s, more), AnswersOf(more, g);
            && Ahead(t, g, Left(s, tasks, n), orders)
            && Count(t.trace, ReportOf(o)) ==
               Count(s.trace, ReportOf(o)) + if ReportedBy(s, tasks, n) == Some(o) then 1 else 0
    decreases |more|
  {
    hide Step, Count, Ahead, ReportedBy, Left, AnswerGauge, OrdersOf;
    OrdersKnown(tasks);
    if more == [] {
      NothingServed(s, tasks);
    } else {
      var e := more[0];
      var t := Step(s, e);
      if e == GaugeAnswer(g) {
        GaugeStep(s, g);
        AnswerAhead(s, g, tasks, orders, o);
        LeftOrders(s, tasks, orders);
        LeftAfterOne(s, t, tasks, AnswersOf(more, g));
        ServedInAnyInterleaving(t, more[1..], g, Left(s, tasks, 1), orders, o);
        NothingLeft(s, t, tasks, AnswersOf(more[1..], g));
      } else {
        StillAhead(s, e, g, tasks, orders);
        LeftAloneNotReported(s, e, g, orders, o);
        ServedInAnyInterleaving(t, more[1..], g, tasks, orders, o);
        LeavesLedger(s, t, g, orders, tasks);
        SameLeft(s, t, tasks, AnswersOf(more, g));
        SameReports(s, t, tasks, AnswersOf(more, g));
      }
    }
  }

  lemma NothingServed(s: State, tasks: seq<Task>)
    ensures Left(s, tasks, 0) == tasks && ReportedBy(s, tasks, 0) == None
  {
  }

  lemma NothingLeft(s: State, t: State, tasks: seq<Task>, n: nat)
    ensures ReportedBy(s, tasks, 1).Some? ==> ReportedBy(t, Left(s, tasks, 1), n) == None
  {
    OneServed(s, tasks);
  }

  lemma LeavesLedger(s: State, t: State, g: GaugeId, orders: set<OrderId>, tasks: seq<Task>)
    requires LeavesAlone(s, t, g, orders) && forall task <- tasks :: task.order in orders
    ensures forall task <- tasks :: task.order in s.sales <==> task.order in t.sales
  {
  }

  lemma SameReports(s: State, t: State, tasks: seq<Task>, n: nat)
    requires forall task <- tasks :: task.order in s.sales <==> task.order in t.sales
    ensures ReportedBy(s, tasks, n) == ReportedBy(t, tasks, n)
  {
    SameLedger(s, t, if n < |tasks| then tasks[..n] else tasks);
  }
}
