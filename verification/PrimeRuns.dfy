/** What holds over every run of the order logic. */
module PrimeRuns {
  import opened Basics
  import opened PrimeModel

  // ------------------------------------------------- reading the history

  /** Kinds of entries to count in a trace. */
  datatype What =
    | PaymentOf(order: OrderId)
    | ConfirmationOf(order: OrderId)
    | CreationOf(order: OrderId)
    | OpeningOf(order: OrderId)
    | ReportOf(order: OrderId)
    | DropOf(order: OrderId)
    | AnyAuthorization
    | AnyCreation
    | AnyTouch
    | AnyLoading

  predicate Is(w: What, o: Output) {
    match w
    case PaymentOf(id) => o == PayTransaction(id)
    case ConfirmationOf(id) => o.PayConfirm? && o.order == id
    case CreationOf(id) => o.OrderCreated? && o.order == id
    case OpeningOf(id) => o == SaleOpened(id)
    case ReportOf(id) => o.ReportSale? && o.order == id
    case DropOf(id) => o == SaleDropped(id)
    case AnyAuthorization => o.Authorize?
    case AnyCreation => o.OrderCreated?
    case AnyTouch => o == BeginTouched
    case AnyLoading => o == DevicesLoaded
  }

  function Count(trace: seq<Output>, w: What): nat {
    if trace == [] then 0
    else Count(trace[..|trace| - 1], w) + if Is(w, trace[|trace| - 1]) then 1 else 0
  }

  /** Whether an order was created and whether begin was touched since the latest AUTHORIZE. */
  function Since(trace: seq<Output>): (bool, bool) {
    if trace == [] then (false, false)
    else
      var before := Since(trace[..|trace| - 1]);
      match trace[|trace| - 1]
      case Authorize(_) => (false, false)
      case OrderCreated(_, _) => (true, before.1)
      case BeginTouched => (before.0, true)
      case _ => before
  }

  /** Every AUTHORIZE comes when both have happened since the previous one, and at once. */
  predicate Handshaken(trace: seq<Output>) {
    trace != [] ==>
      var before := trace[..|trace| - 1];
      Handshaken(before) && (trace[|trace| - 1].Authorize? <==> Since(before) == (true, true))
  }

  function PushedTo(trace: seq<Output>, g: GaugeId): seq<Task> {
    if trace == [] then []
    else
      var o := trace[|trace| - 1];
      PushedTo(trace[..|trace| - 1], g) + if o.TaskPushed? && o.gauge == g then [o.task] else []
  }

  function TakenFrom(trace: seq<Output>, g: GaugeId): seq<Task> {
    if trace == [] then []
    else
      var o := trace[|trace| - 1];
      TakenFrom(trace[..|trace| - 1], g) +
      if o.TaskPopped? && o.gauge == g then [o.task]
      else if o.TasksDiscarded? && o.gauge == g then o.tasks else []
  }

  /** What happened on a dispenser since its order was created: how often the pistol returned before and after
      the order was finalized, how many last tasks were queued by closing and finalizing, and whether all of them
      carry the order's id.  A finalized order is `stale` from a loading of the devices to the next poll that shows
      it; `strays` are the returns in such times. */
  datatype Meeting = Meeting(id: OrderId, finalized: bool, before: nat, after: nat, queued: nat, own: bool,
                             stale: bool, strays: nat)

  function Created(id: OrderId): Meeting {
    Meeting(id, false, 0, 0, 0, true, false, 0)
  }

  /** One more entry of the history. */
  function Met(m: Meeting, d: DispenserId, o: Output): Meeting {
    match o
    case OrderCreated(x, id) => if x == d then Created(id) else m
    case PistolReturned(x) =>
      if x != d then m
      else if m.finalized then m.(after := m.after + 1, strays := m.strays + if m.stale then 1 else 0)
      else m.(before := m.before + 1)
    case PayConfirm(_, _, x) => if x == d then m.(finalized := true) else m
    case TaskPushed(_, task, origin) =>
      if task.dispenser == d && task.kind == AfterFuelling && (origin == AtClosing || origin == AtFinalization)
      then m.(queued := m.queued + 1, own := m.own && task.order == m.id) else m
    case DevicesLoaded => if m.finalized then m.(stale := true) else m
    case OrderPolled(x) => if x == d then m.(stale := false) else m
    case _ => m
  }

  function MeetingOf(trace: seq<Output>, d: DispenserId): Meeting {
    if trace == [] then Created("") else Met(MeetingOf(trace[..|trace| - 1], d), d, trace[|trace| - 1])
  }

  // --------------------------------------------------- the state invariant

  /** An order, a dispenser and a gauge: the invariant is stated for each choice of them. */
  datatype Key = Key(order: OrderId, dispenser: DispenserId, gauge: GaugeId)

  predicate PaidOnce(s: State, o: OrderId) {
    "" !in s.paid && Count(s.trace, PaymentOf(o)) == if o in s.paid then 1 else 0
  }

  function Unfinalized(orders: map<DispenserId, Order>, o: OrderId): set<DispenserId> {
    set d | d in orders && orders[d].id == o && !orders[d].finalized
  }

  predicate ConfirmedOnce(s: State, o: OrderId) {
    o != "" ==>
      Count(s.trace, ConfirmationOf(o)) + |Unfinalized(s.orders, o)| <= Count(s.trace, CreationOf(o))
  }

  predicate FlagsTell(s: State) {
    Handshaken(s.trace) && (s.serverReady, s.touched) == Since(s.trace)
  }

  predicate BetweenSteps(s: State) {
    !(s.serverReady && s.touched)
  }

  predicate LedgerBalanced(s: State, o: OrderId) {
    Count(s.trace, OpeningOf(o)) ==
    Count(s.trace, ReportOf(o)) + Count(s.trace, DropOf(o)) + if o in s.sales then 1 else 0
  }

  predicate QueueTells(s: State, g: GaugeId) {
    PushedTo(s.trace, g) == TakenFrom(s.trace, g) + Queue(s, g)
  }

  /** The number of last tasks that closing and finalizing have queued for the current order. */
  function LastTasks(m: Meeting): nat {
    if m.finalized then m.after + (if m.before > 0 then 1 else 0) else 0
  }

  predicate Meets(s: State, d: DispenserId) {
    var m := MeetingOf(s.trace, d);
    var order := OrderOf(s, d);
    && order.id == m.id && order.finalized == m.finalized
    && (order.closed <==> m.before + m.after > 0)
    && m.queued == LastTasks(m)
    && (!m.finalized ==> m.after == 0 && !m.stale && m.strays == 0)
    && (m.own <==> m.strays == 0 || m.id == "")
    && (m.finalized && d in s.dispensers ==> s.dispensers[d].orderId == if m.stale then "" else m.id)
    && (m.finalized && d !in s.dispensers ==> m.stale)
  }

  predicate Inv(k: Key, s: State) {
    && PaidOnce(s, k.order)
    && ConfirmedOnce(s, k.order)
    && FlagsTell(s)
    && LedgerBalanced(s, k.order)
    && QueueTells(s, k.gauge)
    && Meets(s, k.dispenser)
  }

  ghost predicate Good(k: Key, s: State) {
    Inv(k, s) && BetweenSteps(s)
  }

  // ------------------------------------------------------- emitting outputs

  lemma CountAppend(trace: seq<Output>, o: Output, w: What)
    ensures Count(trace + [o], w) == Count(trace, w) + if Is(w, o) then 1 else 0
  {
    assert (trace + [o])[..|trace|] == trace;
  }

  lemma {:induction false} CountGrows(before: seq<Output>, after: seq<Output>, w: What)
    requires before <= after
    ensures Count(before, w) <= Count(after, w)
    decreases |after|
  {
    if |after| == |before| {
      assert after == before;
    } else {
      CountGrows(before, after[..|after| - 1], w);
    }
  }

  lemma HistoryAppend(k: Key, trace: seq<Output>, o: Output)
    ensures var t := trace + [o];
            && (Handshaken(t) <==> Handshaken(trace) && (o.Authorize? <==> Since(trace) == (true, true)))
            && Since(t) == (match o
                            case Authorize(_) => (false, false)
                            case OrderCreated(_, _) => (true, Since(trace).1)
                            case BeginTouched => (Since(trace).0, true)
                            case _ => Since(trace))
            && PushedTo(t, k.gauge) == PushedTo(trace, k.gauge) +
                                       (if o.TaskPushed? && o.gauge == k.gauge then [o.task] else [])
            && TakenFrom(t, k.gauge) == TakenFrom(trace, k.gauge) +
                                        (if o.TaskPopped? && o.gauge == k.gauge then [o.task]
                                         else if o.TasksDiscarded? && o.gauge == k.gauge then o.tasks else [])
  {
    assert (trace + [o])[..|trace|] == trace;
  }

  /** Outputs that no part of the invariant counts. */
  predicate Plain(o: Output) {
    o.Close? || o.GetStatus? || o.GetParameters? || o.CancelRequest? || o.ClearCard? || o.PrintDebit? || o.PrintRefund?
  }

  lemma CountsAppend(o: OrderId, trace: seq<Output>, x: Output)
    ensures Count(trace + [x], PaymentOf(o)) == Count(trace, PaymentOf(o)) + if Is(PaymentOf(o), x) then 1 else 0
    ensures Count(trace + [x], ConfirmationOf(o)) ==
            Count(trace, ConfirmationOf(o)) + if Is(ConfirmationOf(o), x) then 1 else 0
    ensures Count(trace + [x], CreationOf(o)) == Count(trace, CreationOf(o)) + if Is(CreationOf(o), x) then 1 else 0
    ensures Count(trace + [x], OpeningOf(o)) == Count(trace, OpeningOf(o)) + if Is(OpeningOf(o), x) then 1 else 0
    ensures Count(trace + [x], ReportOf(o)) == Count(trace, ReportOf(o)) + if Is(ReportOf(o), x) then 1 else 0
    ensures Count(trace + [x], DropOf(o)) == Count(trace, DropOf(o)) + if Is(DropOf(o), x) then 1 else 0
  {
    CountAppend(trace, x, PaymentOf(o));
    CountAppend(trace, x, ConfirmationOf(o));
    CountAppend(trace, x, CreationOf(o));
    CountAppend(trace, x, OpeningOf(o));
    CountAppend(trace, x, ReportOf(o));
    CountAppend(trace, x, DropOf(o));
  }

  lemma MeetingAppend(trace: seq<Output>, o: Output, d: DispenserId)
    ensures MeetingOf(trace + [o], d) == Met(MeetingOf(trace, d), d, o)
  {
    assert (trace + [o])[..|trace|] == trace;
  }

  lemma PlainKeeps(k: Key, s: State, o: Output)
    requires Good(k, s) && Plain(o)
    ensures Good(k, Emit(s, o))
  {
    CountsAppend(k.order, s.trace, o);
    HistoryAppend(k, s.trace, o);
    MeetingAppend(s.trace, o, k.dispenser);
    hide Count, Since, Handshaken, PushedTo, TakenFrom, MeetingOf;
  }

  // ------------------------------------- one output, seen by each part alone

  ghost predicate OrderPart(s: State, o: OrderId) {
    PaidOnce(s, o) && ConfirmedOnce(s, o) && LedgerBalanced(s, o)
  }

  predicate Uncounted(x: Output) {
    !x.PayTransaction? && !x.PayConfirm? && !x.OrderCreated? && !x.SaleOpened? && !x.ReportSale? && !x.SaleDropped?
  }

  lemma OrderPartQuiet(o: OrderId, s: State, t: State, x: Output)
    requires OrderPart(s, o) && Uncounted(x) && t.trace == s.trace + [x]
    requires t.paid == s.paid && t.sales == s.sales
    requires o != "" ==> Unfinalized(t.orders, o) == Unfinalized(s.orders, o)
    ensures OrderPart(t, o)
  {
    CountsAppend(o, s.trace, x);
    hide Count, Unfinalized;
  }

  lemma OrderPartConfirmed(o: OrderId, s: State, t: State, x: Output)
    requires OrderPart(s, o) && x.PayConfirm? && t.trace == s.trace + [x]
    requires t.paid == s.paid && t.sales == s.sales
    requires |Unfinalized(t.orders, o)| == |Unfinalized(s.orders, o)| - if x.order == o then 1 else 0
    ensures OrderPart(t, o)
  {
    CountsAppend(o, s.trace, x);
    hide Count, Unfinalized;
  }

  lemma FlagsQuiet(k: Key, s: State, t: State, x: Output)
    requires FlagsTell(s) && BetweenSteps(s) && t.trace == s.trace + [x]
    requires !x.Authorize? && !x.OrderCreated? && !x.BeginTouched?
    requires (t.serverReady, t.touched) == (s.serverReady, s.touched)
    ensures FlagsTell(t) && BetweenSteps(t)
  {
    HistoryAppend(k, s.trace, x);
    hide Since, Handshaken, PushedTo, TakenFrom;
  }

  lemma QueueQuiet(k: Key, s: State, t: State, x: Output)
    requires QueueTells(s, k.gauge) && t.trace == s.trace + [x] && Queue(t, k.gauge) == Queue(s, k.gauge)
    requires !x.TaskPushed? && !x.TaskPopped? && !x.TasksDiscarded?
    ensures QueueTells(t, k.gauge)
  {
    HistoryAppend(k, s.trace, x);
    hide Since, Handshaken, PushedTo, TakenFrom, Queue;
  }

  lemma QueuePushed(k: Key, s: State, t: State, g: GaugeId, task: Task, origin: Origin)
    requires QueueTells(s, k.gauge) && t.trace == s.trace + [TaskPushed(g, task, origin)]
    requires t.queues == s.queues[g := Queue(s, g) + [task]]
    ensures QueueTells(t, k.gauge)
  {
    HistoryAppend(k, s.trace, TaskPushed(g, task, origin));
    hide Since, Handshaken, PushedTo, TakenFrom;
  }

  // ----------------------------------------- every piece keeps the invariant

  lemma AskKeeps(k: Key, s: State, d: DispenserId)
    requires Good(k, s)
    ensures Good(k, AskStatus(s, d))
  {
    hide Good, Inv;
    if d != "" {
      PlainKeeps(k, s, GetStatus(d));
    }
    hide Emit;
  }

  lemma {:induction false} SameUnfinalized(a: map<DispenserId, Order>, b: map<DispenserId, Order>, o: OrderId)
    requires o != ""
    requires forall d :: (if d in a then a[d] else NO_ORDER).id == (if d in b then b[d] else NO_ORDER).id
    requires forall d :: (if d in a then a[d] else NO_ORDER).finalized == (if d in b then b[d] else NO_ORDER).finalized
    ensures Unfinalized(a, o) == Unfinalized(b, o)
  {
    forall d ensures d in Unfinalized(a, o) <==> d in Unfinalized(b, o) {
      assert (if d in a then a[d] else NO_ORDER).id == (if d in b then b[d] else NO_ORDER).id;
    }
  }

  lemma SetOrderKeeps(k: Key, s: State, d: DispenserId, order: Order)
    requires Good(k, s)
    requires (order.id, order.closed) == (OrderOf(s, d).id, OrderOf(s, d).closed)
    requires order.finalized == OrderOf(s, d).finalized
    ensures Good(k, SetOrder(s, d, order))
  {
    if k.order != "" {
      SameUnfinalized(s.orders, SetOrder(s, d, order).orders, k.order);
    }
    hide Count, Since, Handshaken, PushedTo, TakenFrom, MeetingOf, Unfinalized;
  }

  lemma SetDispenserKeeps(k: Key, s: State, d: DispenserId, now: Dispenser)
    requires Good(k, s) && d in s.dispensers
    requires now.orderId == s.dispensers[d].orderId
    ensures Good(k, SetDispenser(s, d, now))
  {
    hide Count, Since, Handshaken, PushedTo, TakenFrom, MeetingOf, Unfinalized;
  }

  lemma OpenSaleKeeps(k: Key, s: State, o: OrderId)
    requires Good(k, s)
    ensures Good(k, OpenSale(s, o))
  {
    CountsAppend(k.order, s.trace, SaleOpened(o));
    HistoryAppend(k, s.trace, SaleOpened(o));
    MeetingAppend(s.trace, SaleOpened(o), k.dispenser);
    hide Count, Since, Handshaken, PushedTo, TakenFrom, MeetingOf, Unfinalized;
  }

  lemma SaleTypeKeeps(k: Key, s: State, o: OrderId, t: SaleType)
    requires Good(k, s)
    ensures Good(k, SetSaleType(s, o, t))
  {
    hide Count, Since, Handshaken, PushedTo, TakenFrom, MeetingOf, Unfinalized;
  }

  lemma DropSaleKeeps(k: Key, s: State, o: OrderId)
    requires Good(k, s)
    ensures Good(k, DropSale(s, o))
  {
    CountsAppend(k.order, s.trace, SaleDropped(o));
    HistoryAppend(k, s.trace, SaleDropped(o));
    MeetingAppend(s.trace, SaleDropped(o), k.dispenser);
    hide Count, Since, Handshaken, PushedTo, TakenFrom, MeetingOf, Unfinalized;
  }

  lemma AuthorizeKeeps(k: Key, s: State)
    requires Inv(k, s)
    ensures Good(k, AuthorizeOnServer(s))
  {
    var o := Authorize(s.current);
    CountsAppend(k.order, s.trace, o);
    HistoryAppend(k, s.trace, o);
    MeetingAppend(s.trace, o, k.dispenser);
    hide Count, Since, Handshaken, PushedTo, TakenFrom, MeetingOf, Unfinalized;
  }

  lemma TouchMarkKeeps(k: Key, s: State)
    requires Good(k, s)
    ensures Inv(k, Emit(s.(touched := true), BeginTouched))
  {
    CountsAppend(k.order, s.trace, BeginTouched);
    HistoryAppend(k, s.trace, BeginTouched);
    MeetingAppend(s.trace, BeginTouched, k.dispenser);
    hide Count, Since, Handshaken, PushedTo, TakenFrom, MeetingOf, Unfinalized;
  }

  lemma TouchKeeps(k: Key, s: State)
    requires Good(k, s)
    ensures Good(k, TouchBegin(s))
  {
    hide Good, Inv;
    TouchMarkKeeps(k, s);
    var t := AuthorizeOnServer(Emit(s.(touched := true), BeginTouched));
    AuthorizeKeeps(k, Emit(s.(touched := true), BeginTouched));
    if t.current in t.orders {
      var id := t.orders[t.current].id;
      OpenSaleKeeps(k, t, id);
      PlainKeeps(k, OpenSale(t, id), PrintDebit(id));
    }
    hide Emit, OpenSale, AuthorizeOnServer;
  }

  lemma StartedUnfinalized(orders: map<DispenserId, Order>, d: DispenserId, order: Order, o: OrderId)
    ensures |Unfinalized(orders[d := order], o)| <=
            |Unfinalized(orders, o)| + if order.id == o && !order.finalized then 1 else 0
  {
    var a, b := Unfinalized(orders, o), Unfinalized(orders[d := order], o);
    if order.id == o && !order.finalized {
      assert b <= a + {d};
      SubsetSize(b, a + {d});
    } else {
      assert b <= a;
      SubsetSize(b, a);
    }
  }

  lemma {:induction false} SubsetSize<T>(a: set<T>, b: set<T>)
    requires a <= b
    ensures |a| <= |b|
  {
    if a != {} {
      var x :| x in a;
      SubsetSize(a - {x}, b - {x});
    }
  }

  lemma StartKeeps(k: Key, s: State, d: DispenserId, o: OrderId)
    requires Good(k, s)
    ensures Inv(k, SetOrder(Emit(s.(serverReady := true), OrderCreated(d, o)), d, NO_ORDER.(id := o)))
  {
    var x := OrderCreated(d, o);
    CountsAppend(k.order, s.trace, x);
    HistoryAppend(k, s.trace, x);
    MeetingAppend(s.trace, x, k.dispenser);
    StartedUnfinalized(s.orders, d, NO_ORDER.(id := o), k.order);
    hide Count, Since, Handshaken, PushedTo, TakenFrom, MeetingOf, Unfinalized;
  }

  lemma CreateOrderKeeps(k: Key, s: State, d: DispenserId, o: OrderId)
    requires Good(k, s)
    ensures Good(k, CreateOrder(s, d, o))
  {
    hide Good, Inv;
    var t := SetOrder(Emit(s.(serverReady := true), OrderCreated(d, o)), d, NO_ORDER.(id := o));
    StartKeeps(k, s, d, o);
    AuthorizeKeeps(k, t);
    AskKeeps(k, AuthorizeOnServer(t), d);
    assert CreateOrder(s, d, o) == AskStatus(AuthorizeOnServer(t), d);
  }

  lemma QueuedParts(k: Key, s: State, g: GaugeId, task: Task, origin: Origin)
    requires OrderPart(s, k.order) && FlagsTell(s) && BetweenSteps(s) && QueueTells(s, k.gauge)
    ensures var t := Queued(s, g, task, origin);
            OrderPart(t, k.order) && FlagsTell(t) && BetweenSteps(t) && QueueTells(t, k.gauge)
  {
    var t, x := Queued(s, g, task, origin), TaskPushed(g, task, origin);
    OrderPartQuiet(k.order, s, t, x);
    FlagsQuiet(k, s, t, x);
    QueuePushed(k, s, t, g, task, origin);
    hide PaidOnce, ConfirmedOnce, LedgerBalanced, FlagsTell, QueueTells, Meets, BetweenSteps;
  }

  lemma QueuedMeets(s: State, g: GaugeId, task: Task, origin: Origin, at: DispenserId)
    requires Meets(s, at)
    requires task.kind == BeforeFuelling || origin == AtCancellation || origin == AtAuthorization
    ensures Meets(Queued(s, g, task, origin), at)
  {
    MeetingAppend(s.trace, TaskPushed(g, task, origin), at);
    hide MeetingOf;
  }

  /** Tasks other than the last one after closing or finalizing. */
  lemma PushKeeps(k: Key, s: State, g: GaugeId, task: Task, origin: Origin)
    requires Good(k, s)
    requires task.kind == BeforeFuelling || origin == AtCancellation || origin == AtAuthorization
    ensures Good(k, Push(s, g, task, origin))
  {
    hide PaidOnce, ConfirmedOnce, LedgerBalanced, FlagsTell, QueueTells, Meets, BetweenSteps, Queued;
    var t := Queued(s, g, task, origin);
    QueuedParts(k, s, g, task, origin);
    QueuedMeets(s, g, task, origin, k.dispenser);
    assert Good(k, t);
    PlainKeeps(k, t, GetParameters(g));
  }

  lemma ReturnKeeps(k: Key, s: State, d: DispenserId, now: Dispenser)
    requires Good(k, s) && d in s.dispensers && s.dispensers[d].orderId == now.orderId
    ensures Good(k, ReturnPistol(s, d, now))
  {
    hide Good, Inv;
    var t := Emit(s, Close(d));
    PlainKeeps(k, s, Close(d));
    var g, task := GaugeFor(t.tankers, now.product), Task(now.orderId, d, AfterFuelling);
    if OrderOf(s, d).finalized {
      ReturnedAndQueued(k, t, d, g, task);
      PlainKeeps(k, Queued(MarkReturned(t, d), g, task, AtClosing), GetParameters(g));
    } else {
      ReturnedOnly(k, t, d);
    }
    hide MarkReturned;
  }

  lemma MarkReturnedParts(k: Key, s: State, d: DispenserId)
    requires Good(k, s)
    ensures var t := MarkReturned(s, d);
            OrderPart(t, k.order) && FlagsTell(t) && BetweenSteps(t) && QueueTells(t, k.gauge)
  {
    var t := MarkReturned(s, d);
    if k.order != "" {
      SameUnfinalized(s.orders, t.orders, k.order);
    }
    OrderPartQuiet(k.order, s, t, PistolReturned(d));
    FlagsQuiet(k, s, t, PistolReturned(d));
    QueueQuiet(k, s, t, PistolReturned(d));
    hide PaidOnce, ConfirmedOnce, LedgerBalanced, FlagsTell, QueueTells, Meets, BetweenSteps;
  }

  lemma ReturnedOnly(k: Key, s: State, d: DispenserId)
    requires Good(k, s) && !OrderOf(s, d).finalized
    ensures Good(k, MarkReturned(s, d))
  {
    MarkReturnedParts(k, s, d);
    assert Meets(MarkReturned(s, d), k.dispenser) by {
      MeetingAppend(s.trace, PistolReturned(d), k.dispenser);
      hide MeetingOf;
    }
    hide MarkReturned;
    hide PaidOnce, ConfirmedOnce, LedgerBalanced, FlagsTell, QueueTells, Meets, BetweenSteps;
  }

  lemma ReturnedMeets(s: State, d: DispenserId, g: GaugeId, task: Task, at: DispenserId)
    requires Meets(s, at) && OrderOf(s, d).finalized && d in s.dispensers
    requires task == Task(s.dispensers[d].orderId, d, AfterFuelling)
    ensures Meets(Queued(MarkReturned(s, d), g, task, AtClosing), at)
  {
    MeetingAppend(s.trace, PistolReturned(d), at);
    MeetingAppend(s.trace + [PistolReturned(d)], TaskPushed(g, task, AtClosing), at);
    hide MeetingOf;
  }

  lemma ReturnedAndQueued(k: Key, s: State, d: DispenserId, g: GaugeId, task: Task)
    requires Good(k, s) && OrderOf(s, d).finalized && d in s.dispensers
    requires task == Task(s.dispensers[d].orderId, d, AfterFuelling)
    ensures Good(k, Queued(MarkReturned(s, d), g, task, AtClosing))
  {
    MarkReturnedParts(k, s, d);
    QueuedParts(k, MarkReturned(s, d), g, task, AtClosing);
    ReturnedMeets(s, d, g, task, k.dispenser);
    hide MarkReturned, Queued;
    hide PaidOnce, ConfirmedOnce, LedgerBalanced, FlagsTell, QueueTells, Meets, BetweenSteps;
  }

  lemma FinalizedUnfinalized(orders: map<DispenserId, Order>, d: DispenserId, o: OrderId)
    requires d in orders && !orders[d].finalized
    ensures |Unfinalized(orders[d := orders[d].(finalized := true)], o)| ==
            |Unfinalized(orders, o)| - if orders[d].id == o then 1 else 0
  {
    var a, b := Unfinalized(orders, o), Unfinalized(orders[d := orders[d].(finalized := true)], o);
    assert b == a - {d};
  }

  lemma FinishOpenKeeps(k: Key, s: State, d: DispenserId)
    requires Good(k, s) && d in s.orders && !s.orders[d].finalized && !s.orders[d].closed
    requires d in s.dispensers && s.dispensers[d].orderId == s.orders[d].id
    ensures Good(k, Finish(s, d))
  {
    var t := Finish(s, d);
    assert t == Confirmed(s, d);
    ConfirmParts(k, s, d);
    assert Meets(t, k.dispenser) by {
      MeetingAppend(s.trace, PayConfirm(s.orders[d].id, s.orders[d].status == Interrupted, d), k.dispenser);
      hide MeetingOf;
    }
    hide Finish, Confirmed;
    hide PaidOnce, ConfirmedOnce, LedgerBalanced, FlagsTell, QueueTells, Meets, BetweenSteps;
  }

  lemma FinishedMeets(s: State, t: State, d: DispenserId, g: GaugeId, at: DispenserId)
    requires Meets(s, at) && d in s.orders && !s.orders[d].finalized && s.orders[d].closed
    requires d in s.dispensers && s.dispensers[d].orderId == s.orders[d].id
    requires t.trace == s.trace + [TaskPushed(g, Task(s.orders[d].id, d, AfterFuelling), AtFinalization)]
                        + [GetParameters(g)] + [PayConfirm(s.orders[d].id, s.orders[d].status == Interrupted, d)]
    requires t.orders == s.orders[d := s.orders[d].(finalized := true)] && t.dispensers == s.dispensers
    ensures Meets(t, at)
  {
    var x := TaskPushed(g, Task(s.orders[d].id, d, AfterFuelling), AtFinalization);
    MeetingAppend(s.trace, x, at);
    MeetingAppend(s.trace + [x], GetParameters(g), at);
    var y := PayConfirm(s.orders[d].id, s.orders[d].status == Interrupted, d);
    MeetingAppend(s.trace + [x] + [GetParameters(g)], y, at);
    hide MeetingOf;
  }

  lemma FinishCommutes(s: State, d: DispenserId)
    requires d in s.orders && s.orders[d].closed
    ensures var order := s.orders[d];
            var v := Push(s, GaugeFor(s.tankers, order.product), Task(order.id, d, AfterFuelling), AtFinalization);
            && Finish(s, d) == Confirmed(v, d)
            && Finish(s, d).trace == s.trace +
               [TaskPushed(GaugeFor(s.tankers, order.product), Task(order.id, d, AfterFuelling), AtFinalization)] +
               [GetParameters(GaugeFor(s.tankers, order.product))] +
               [PayConfirm(order.id, order.status == Interrupted, d)]
            && Finish(s, d).orders == s.orders[d := order.(finalized := true)]
            && Finish(s, d).dispensers == s.dispensers
  {
  }

  function Confirmed(s: State, d: DispenserId): State
    requires d in s.orders
  {
    Emit(SetOrder(s, d, s.orders[d].(finalized := true)),
         PayConfirm(s.orders[d].id, s.orders[d].status == Interrupted, d))
  }

  lemma ConfirmParts(k: Key, s: State, d: DispenserId)
    requires OrderPart(s, k.order) && FlagsTell(s) && BetweenSteps(s) && QueueTells(s, k.gauge)
    requires d in s.orders && !s.orders[d].finalized
    ensures var t := Confirmed(s, d);
            OrderPart(t, k.order) && FlagsTell(t) && BetweenSteps(t) && QueueTells(t, k.gauge)
  {
    var x, t := PayConfirm(s.orders[d].id, s.orders[d].status == Interrupted, d), Confirmed(s, d);
    FinalizedUnfinalized(s.orders, d, k.order);
    OrderPartConfirmed(k.order, s, t, x);
    FlagsQuiet(k, s, t, x);
    QueueQuiet(k, s, t, x);
    hide PaidOnce, ConfirmedOnce, LedgerBalanced, FlagsTell, QueueTells, Meets, BetweenSteps;
  }

  lemma PushParts(k: Key, s: State, g: GaugeId, task: Task, origin: Origin)
    requires Good(k, s)
    ensures var t := Push(s, g, task, origin);
            OrderPart(t, k.order) && FlagsTell(t) && BetweenSteps(t) && QueueTells(t, k.gauge)
  {
    var u := Queued(s, g, task, origin);
    QueuedParts(k, s, g, task, origin);
    hide Queued;
    OrderPartQuiet(k.order, u, Emit(u, GetParameters(g)), GetParameters(g));
    FlagsQuiet(k, u, Emit(u, GetParameters(g)), GetParameters(g));
    QueueQuiet(k, u, Emit(u, GetParameters(g)), GetParameters(g));
    hide PaidOnce, ConfirmedOnce, LedgerBalanced, FlagsTell, QueueTells, Meets, BetweenSteps;
  }

  lemma FinishClosedKeeps(k: Key, s: State, d: DispenserId)
    requires Good(k, s) && d in s.orders && !s.orders[d].finalized && s.orders[d].closed
    requires d in s.dispensers && s.dispensers[d].orderId == s.orders[d].id
    ensures Good(k, Finish(s, d))
  {
    var order := s.orders[d];
    var g, task := GaugeFor(s.tankers, order.product), Task(order.id, d, AfterFuelling);
    var v, t := Push(s, g, task, AtFinalization), Finish(s, d);
    PushParts(k, s, g, task, AtFinalization);
    FinishCommutes(s, d);
    FinishedMeets(s, t, d, g, k.dispenser);
    assert (v.orders, v.dispensers) == (s.orders, s.dispensers);
    hide Push, Finish;
    ConfirmParts(k, v, d);
    hide PaidOnce, ConfirmedOnce, LedgerBalanced, FlagsTell, QueueTells, Meets, BetweenSteps;
  }

  lemma SettleKeeps(k: Key, s: State, order: Order)
    requires Good(k, s)
    ensures Good(k, SettleSale(s, order))
  {
    hide Good, Inv;
    var t := SetSaleType(s, order.id, Full);
    SaleTypeKeeps(k, s, order.id, Full);
    SaleTypeKeeps(k, t, order.id, Partial);
    PlainKeeps(k, SetSaleType(t, order.id, Partial), PrintRefund(order.id));
    hide SetSaleType, Emit;
  }

  lemma FinalizeKeeps(k: Key, s: State, d: DispenserId)
    requires Good(k, s) && d in s.orders && d in s.dispensers && s.dispensers[d].orderId == s.orders[d].id
    ensures Good(k, Finalize(s, d))
  {
    hide Good, Inv, Finish;
    var order := s.orders[d];
    if !order.finalized {
      SettleKeeps(k, s, order);
      var b := SettleSale(s, order);
      assert (b.orders, b.dispensers) == (s.orders, s.dispensers);
      hide SettleSale;
      if order.closed {
        FinishClosedKeeps(k, b, d);
      } else {
        FinishOpenKeeps(k, b, d);
      }
    }
  }

  lemma FailKeeps(k: Key, s: State, o: OrderId)
    requires Good(k, s)
    ensures Good(k, FailPayment(s, o))
  {
    hide Good, Inv;
    PlainKeeps(k, s, Close(s.current));
    PlainKeeps(k, Emit(s, Close(s.current)), ClearCard);
    DropSaleKeeps(k, Emit(Emit(s, Close(s.current)), ClearCard), o);
    hide DropSale;
  }

  lemma PayKeeps(k: Key, s: State, o: OrderId)
    requires Good(k, s) && o != "" && o !in s.paid
    ensures Good(k, Emit(s.(paid := s.paid + {o}), PayTransaction(o)))
  {
    var x := PayTransaction(o);
    CountsAppend(k.order, s.trace, x);
    HistoryAppend(k, s.trace, x);
    MeetingAppend(s.trace, x, k.dispenser);
    hide Count, Since, Handshaken, PushedTo, TakenFrom, MeetingOf, Unfinalized;
  }

  lemma CreatePaymentKeeps(k: Key, s: State, o: OrderId, refused: bool)
    requires Good(k, s)
    ensures Good(k, CreatePayment(s, o, refused))
  {
    hide Good, Inv;
    if o != "" && o !in s.paid {
      var t := Emit(s.(paid := s.paid + {o}), PayTransaction(o));
      PayKeeps(k, s, o);
      FailKeeps(k, t, o);
      assert CreatePayment(s, o, refused) == if refused then FailPayment(t, o) else t;
    }
  }

  lemma QueuePopped(k: Key, s: State, t: State, g: GaugeId)
    requires QueueTells(s, k.gauge) && Queue(s, g) != []
    requires t.trace == s.trace + [TaskPopped(g, Queue(s, g)[0])] && t.queues == s.queues[g := Queue(s, g)[1..]]
    ensures QueueTells(t, k.gauge)
  {
    var q := Queue(s, g);
    HistoryAppend(k, s.trace, TaskPopped(g, q[0]));
    hide Since, Handshaken, PushedTo, TakenFrom;
    if g == k.gauge {
      assert q == [q[0]] + q[1..];
      var taken := TakenFrom(s.trace, g);
      assert taken + q == taken + [q[0]] + q[1..];
    } else {
      assert Queue(t, k.gauge) == Queue(s, k.gauge);
    }
  }

  lemma PopKeeps(k: Key, s: State, g: GaugeId)
    requires Good(k, s) && Queue(s, g) != []
    ensures Good(k, Emit(s.(queues := s.queues[g := Queue(s, g)[1..]]), TaskPopped(g, Queue(s, g)[0])))
  {
    var q := Queue(s, g);
    var x := TaskPopped(g, q[0]);
    var t := Emit(s.(queues := s.queues[g := q[1..]]), x);
    OrderPartQuiet(k.order, s, t, x);
    FlagsQuiet(k, s, t, x);
    QueuePopped(k, s, t, g);
    assert Meets(t, k.dispenser) by {
      MeetingAppend(s.trace, x, k.dispenser);
      hide MeetingOf;
    }
    hide PaidOnce, ConfirmedOnce, LedgerBalanced, FlagsTell, QueueTells, Meets, BetweenSteps;
  }

  lemma OrderPartReported(at: OrderId, s: State, t: State, o: OrderId)
    requires OrderPart(s, at) && o in s.sales
    requires t == Emit(s.(sales := s.sales - {o}), ReportSale(o, s.sales[o]))
    ensures OrderPart(t, at)
  {
    CountsAppend(at, s.trace, ReportSale(o, s.sales[o]));
    hide Count, Unfinalized;
  }

  lemma ReportKeeps(k: Key, s: State, o: OrderId)
    requires Good(k, s) && o in s.sales
    ensures Good(k, Emit(s.(sales := s.sales - {o}), ReportSale(o, s.sales[o])))
  {
    var x := ReportSale(o, s.sales[o]);
    var t := Emit(s.(sales := s.sales - {o}), x);
    OrderPartReported(k.order, s, t, o);
    FlagsQuiet(k, s, t, x);
    QueueQuiet(k, s, t, x);
    assert Meets(t, k.dispenser) by {
      MeetingAppend(s.trace, x, k.dispenser);
      hide MeetingOf;
    }
    hide PaidOnce, ConfirmedOnce, LedgerBalanced, FlagsTell, QueueTells, Meets, BetweenSteps;
  }

  lemma DiscardKeeps(k: Key, s: State, g: GaugeId)
    requires Good(k, s)
    ensures Good(k, Emit(s.(queues := s.queues - {g}), TasksDiscarded(g, Queue(s, g))))
  {
    var x := TasksDiscarded(g, Queue(s, g));
    CountsAppend(k.order, s.trace, x);
    HistoryAppend(k, s.trace, x);
    MeetingAppend(s.trace, x, k.dispenser);
    hide Count, Since, Handshaken, PushedTo, TakenFrom, MeetingOf, Unfinalized;
  }

  lemma EmptyQueueKeeps(k: Key, s: State, g: GaugeId)
    requires Good(k, s) && Queue(s, g) == []
    ensures Good(k, s.(queues := s.queues - {g}))
  {
    hide Count, Since, Handshaken, PushedTo, TakenFrom, MeetingOf, Unfinalized;
  }

  lemma AnswerGaugeKeeps(k: Key, s: State, g: GaugeId)
    requires Good(k, s)
    ensures Good(k, AnswerGauge(s, g))
  {
    hide Good, Inv;
    if Queue(s, g) != [] {
      var task, rest := Queue(s, g)[0], Queue(s, g)[1..];
      var t := Emit(s.(queues := s.queues[g := rest]), TaskPopped(g, task));
      PopKeeps(k, s, g);
      if task.kind == BeforeFuelling {
        if rest == [] {
          EmptyQueueKeeps(k, t, g);
        }
      } else if task.order in t.sales {
        var u := Emit(t.(sales := t.sales - {task.order}), ReportSale(task.order, t.sales[task.order]));
        ReportKeeps(k, t, task.order);
        DiscardKeeps(k, u, g);
        assert AnswerGauge(s, g) == Emit(u.(queues := u.queues - {g}), TasksDiscarded(g, Queue(u, g)));
      }
    }
  }

  /** The finalized order of a dispenser has seen the devices loaded again. */
  predicate Forgotten(s: State, d: DispenserId) {
    var m := MeetingOf(s.trace, d);
    m.finalized ==> m.stale
  }

  lemma UnloadKeeps(k: Key, s: State)
    requires Good(k, s)
    ensures var t := Emit(s.(dispensers := map[]), DevicesLoaded);
            Good(k, t) && Forgotten(t, k.dispenser)
  {
    CountsAppend(k.order, s.trace, DevicesLoaded);
    HistoryAppend(k, s.trace, DevicesLoaded);
    MeetingAppend(s.trace, DevicesLoaded, k.dispenser);
    hide Count, Since, Handshaken, PushedTo, TakenFrom, MeetingOf, Unfinalized;
  }

  lemma NewDispenserKeeps(k: Key, s: State, d: DispenserId, now: Dispenser)
    requires Good(k, s) && Forgotten(s, k.dispenser) && now.orderId == ""
    ensures Good(k, SetDispenser(s, d, now)) && Forgotten(SetDispenser(s, d, now), k.dispenser)
  {
    hide Count, Since, Handshaken, PushedTo, TakenFrom, MeetingOf, Unfinalized;
  }

  lemma AskForgets(s: State, d: DispenserId, at: DispenserId)
    requires Forgotten(s, at)
    ensures Forgotten(AskStatus(s, d), at)
  {
    MeetingAppend(s.trace, GetStatus(d), at);
    hide MeetingOf;
  }

  lemma {:induction false} RegisterKeeps(k: Key, s: State, ids: seq<DispenserId>)
    requires Good(k, s) && Forgotten(s, k.dispenser)
    ensures Good(k, Register(s, ids)) && Forgotten(Register(s, ids), k.dispenser)
  {
    hide Good, Inv, Forgotten, AskStatus, SetDispenser;
    if ids != [] {
      var d := ids[|ids| - 1];
      var t := Register(s, ids[..|ids| - 1]);
      RegisterKeeps(k, s, ids[..|ids| - 1]);
      NewDispenserKeeps(k, t, d, NEW_DISPENSER);
      AskKeeps(k, SetDispenser(t, d, NEW_DISPENSER), d);
      AskForgets(SetDispenser(t, d, NEW_DISPENSER), d, k.dispenser);
    }
  }

  lemma ReloadKeeps(k: Key, s: State, ids: seq<DispenserId>)
    requires Good(k, s)
    ensures Good(k, Reload(s, ids))
  {
    hide Good, Inv, Forgotten, Register;
    UnloadKeeps(k, s);
    RegisterKeeps(k, Emit(s.(dispensers := map[]), DevicesLoaded), ids);
  }

  // --------------------------------------------- every handler, every run

  lemma RandomStatusKeeps(k: Key, s: State, d: DispenserId, c: StatusChange)
    requires Good(k, s)
    ensures Good(k, RandomStatus(s, d, c))
  {
    hide Good, Inv;
    if d in s.dispensers {
      var was := s.dispensers[d];
      var now := Dispenser(c.status, was.status, if c.nozzle.Some? then c.nozzle.value else was.product, was.orderId);
      SetDispenserKeeps(k, s, d, now);
      ReturnKeeps(k, SetDispenser(s, d, now), d, now);
      hide ReturnPistol;
    }
  }

  lemma ReturnFrame(s: State, d: DispenserId, now: Dispenser)
    ensures ReturnPistol(s, d, now).dispensers == s.dispensers
  {
    hide GaugeFor, Queue;
  }

  lemma SelectedStatusKeeps(k: Key, s: State, d: DispenserId, c: StatusChange)
    requires Good(k, s)
    ensures Good(k, SelectedStatus(s, d, c))
  {
    hide Good, Inv;
    if d in s.dispensers {
      var was := s.dispensers[d];
      var now := Dispenser(c.status, was.status, if c.nozzle.Some? then c.nozzle.value else was.product, was.orderId);
      var t := SetDispenser(s, d, now);
      SetDispenserKeeps(k, s, d, now);
      ReturnKeeps(k, t, d, now);
      ReturnFrame(t, d, now);
      hide ReturnPistol;
      PlainKeeps(k, ReturnPistol(t, d, now), ClearCard);
      var u := if was.status == Complete || was.status == Fuelling then Emit(ReturnPistol(t, d, now), ClearCard) else t;
      AskKeeps(k, u, d);
      var v := AskStatus(u, d);
      UncountedFields(k, v, v.tankers, v.products, "");
      SetDispenserKeeps(k, v.(current := ""), d, now.(prev := NoStatus));
    }
  }

  lemma ChangeOrderKeeps(k: Key, s: State, d: DispenserId, c: OrderChange)
    requires Good(k, s)
    ensures Good(k, ChangeOrder(s, d, c))
  {
    hide Good, Inv;
    var order := OrderOf(s, d);
    var t := SetOrder(s, d, if c.status.Some? then order.(status := c.status.value) else order);
    SetOrderKeeps(k, s, d, if c.status.Some? then order.(status := c.status.value) else order);
    AskKeeps(k, t, d);
    OpenSaleKeeps(k, t, order.id);
    PushKeeps(k, OpenSale(t, order.id), GaugeFor(t.tankers, order.product), Task(order.id, d, BeforeFuelling),
              AtAuthorization);
    hide Push, OpenSale;
  }

  lemma DeviceEventKeeps(k: Key, s: State, e: Event)
    requires Good(k, s) && e.DeviceEvent?
    ensures Good(k, ProcessDeviceEvent(s, e))
  {
    hide Good, Inv;
    var d := e.dispenser;
    var t := s;
    if e.orderChange.Some? {
      t := ChangeOrder(s, d, e.orderChange.value);
      ChangeOrderKeeps(k, s, d, e.orderChange.value);
    }
    var u := t;
    if e.statusChange.Some? {
      u := RandomStatus(t, d, e.statusChange.value);
      RandomStatusKeeps(k, t, d, e.statusChange.value);
      SelectedStatusKeeps(k, u, d, e.statusChange.value);
    } else if e.created.Some? {
      CreateOrderKeeps(k, u, d, e.created.value);
    }
    hide ChangeOrder, RandomStatus, SelectedStatus, CreateOrder;
  }

  lemma NotePolledKeeps(k: Key, s: State, d: DispenserId)
    requires Good(k, s) && d in s.dispensers && d in s.orders
    ensures Good(k, NotePolled(s, d, s.orders[d].id))
  {
    var x := OrderPolled(d);
    CountsAppend(k.order, s.trace, x);
    HistoryAppend(k, s.trace, x);
    MeetingAppend(s.trace, x, k.dispenser);
    hide Count, Since, Handshaken, PushedTo, TakenFrom, MeetingOf, Unfinalized;
  }

  lemma PollOrderKeeps(k: Key, s: State, d: DispenserId, p: PolledOrder, refused: bool)
    requires Good(k, s) && d in s.dispensers
    ensures Good(k, PollOrder(s, d, p, refused))
  {
    hide Good, Inv;
    if d !in s.orders || s.orders[d].id != p.id {
      PlainKeeps(k, s, Close(d));
    } else {
      var r := NotePolled(s, d, p.id);
      NotePolledKeeps(k, s, d);
      var t := SetOrder(r, d, s.orders[d].(status := p.status));
      SetOrderKeeps(k, r, d, s.orders[d].(status := p.status));
      var u := if p.status == Interrupted || p.status == Delivered then Finalize(t, d) else t;
      FinalizeKeeps(k, t, d);
      OpenSaleKeeps(k, u, p.id);
      CreatePaymentKeeps(k, OpenSale(u, p.id), p.id, refused);
    }
    hide Finalize, OpenSale, CreatePayment;
  }

  lemma PollStatusKeeps(k: Key, s: State, d: DispenserId, status: DispenserStatus, nozzle: Option<ProductId>,
                        polled: Option<PolledOrder>, refused: bool)
    requires Good(k, s)
    ensures Good(k, PollStatus(s, d, status, nozzle, polled, refused))
  {
    hide Good, Inv;
    if d in s.dispensers {
      var was := s.dispensers[d];
      var now := Dispenser(status, was.status, if nozzle.Some? then nozzle.value else was.product, was.orderId);
      var t := SetDispenser(s, d, now);
      SetDispenserKeeps(k, s, d, now);
      var u := t;
      if nozzle.Some? {
        u := SetOrder(t, d, OrderOf(t, d).(product := nozzle.value));
        SetOrderKeeps(k, t, d, OrderOf(t, d).(product := nozzle.value));
      }
      if polled.Some? {
        PollOrderKeeps(k, u, d, polled.value, refused);
      }
      hide PollOrder;
    }
  }

  lemma CancelKeeps(k: Key, s: State)
    requires Good(k, s)
    ensures Good(k, CancelTransaction(s))
  {
    hide Good, Inv;
    if s.current in s.orders {
      var order := s.orders[s.current];
      var g, task := GaugeFor(s.tankers, order.product), Task(order.id, s.current, AfterFuelling);
      SaleTypeKeeps(k, s, order.id, Revert);
      PushKeeps(k, SetSaleType(s, order.id, Revert), g, task, AtCancellation);
      var t := if order.id in s.sales then Push(SetSaleType(s, order.id, Revert), g, task, AtCancellation) else s;
      PlainKeeps(k, t, PrintRefund(order.id));
      var u := Emit(t, PrintRefund(order.id));
      PlainKeeps(k, u, CancelRequest);
      var v := Emit(u, CancelRequest);
      PlainKeeps(k, v, Close(s.current));
      PlainKeeps(k, Emit(v, Close(s.current)), ClearCard);
    }
    hide Push, SetSaleType;
  }

  lemma ChooseKeeps(k: Key, s: State, d: DispenserId, pricesSet: bool)
    requires Good(k, s)
    ensures Good(k, Choose(s, d, pricesSet))
  {
    var t := s.(current := d);
    assert Good(k, t) by {
      hide Count, Since, Handshaken, PushedTo, TakenFrom, MeetingOf, Unfinalized;
    }
    SetOrderKeeps(k, t, d, OrderOf(t, d));
    hide Inv;
  }

  lemma UncountedFields(k: Key, s: State, tankers: seq<Tanker>, products: set<ProductId>, current: DispenserId)
    requires Good(k, s)
    ensures Good(k, s.(tankers := tankers, products := products, current := current))
  {
    hide Count, Since, Handshaken, PushedTo, TakenFrom, MeetingOf, Unfinalized;
  }

  lemma StepKeeps(k: Key, s: State, e: Event)
    requires Good(k, s)
    ensures Good(k, Step(s, e))
  {
    hide Good, Inv;
    match e
    case LoadDevices(ids) => ReloadKeeps(k, s, ids); hide Reload;
    case LoadTankers(tankers) => UncountedFields(k, s, s.tankers + tankers, s.products, s.current);
    case LoadProducts(products) => UncountedFields(k, s, s.tankers, s.products + products, s.current);
    case ChooseDispenser(d, pricesSet) => ChooseKeeps(k, s, d, pricesSet); hide Choose;
    case LeaveDispenser => UncountedFields(k, s, s.tankers, s.products, "");
    case NewOrderTouch =>
      PlainKeeps(k, s, ClearCard);
      UncountedFields(k, Emit(s, ClearCard), s.tankers, s.products, "");
    case BeginTouch => TouchKeeps(k, s); hide TouchBegin;
    case CloseTouch =>
      PlainKeeps(k, s, Close(s.current));
      AskKeeps(k, Emit(s, Close(s.current)), s.current);
      hide AskStatus;
    case CancelTouch => CancelKeeps(k, s); hide CancelTransaction;
    case CancelPinTouch =>
      PlainKeeps(k, s, Close(s.current));
      PlainKeeps(k, Emit(s, Close(s.current)), ClearCard);
    case DeviceEvent(_, _, _, _, _) => DeviceEventKeeps(k, s, e); hide ProcessDeviceEvent;
    case StatusPoll(d, status, nozzle, polled, refused) =>
      PollStatusKeeps(k, s, d, status, nozzle, polled, refused);
      hide PollStatus;
    case GaugeAnswer(g) => AnswerGaugeKeeps(k, s, g); hide AnswerGauge;
    case PaymentAnswer(o, r) => FailKeeps(k, s, o); hide FailPayment;
  }

  /** The invariant holds in every run, for every order, dispenser and gauge. */
  lemma {:induction false} RunsKeepInv(k: Key, events: seq<Event>)
    ensures Good(k, After(events))
  {
    if events != [] {
      RunsKeepInv(k, events[..|events| - 1]);
      StepKeeps(k, After(events[..|events| - 1]), events[|events| - 1]);
      hide Step, Good;
    }
  }
}
