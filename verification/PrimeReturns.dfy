/** Which returns of the pistol the order logic notices, read off the events alone. */
module PrimeReturns {
  import opened Basics
  import opened PrimeModel
  import opened PrimeCauses
  import opened PrimeRuns

  /** The status last reported for a dispenser, by an event or a poll, since the devices that include it were loaded;
      a newly loaded one counts as idle. */
  function StatusSeen(events: seq<Event>, d: DispenserId): Option<DispenserStatus> {
    if events == [] then None
    else SeenNext(StatusSeen(events[..|events| - 1], d), events[|events| - 1], d)
  }

  function SeenNext(before: Option<DispenserStatus>, e: Event, d: DispenserId): Option<DispenserStatus> {
    match e
    case LoadDevices(ids) => if d in ids then Some(Idle) else None
    case DeviceEvent(x, _, Some(c), _, _) => if x == d && before.Some? then Some(c.status) else before
    case StatusPoll(x, status, _, _, _) => if x == d && before.Some? then Some(status) else before
    case _ => before
  }

  function StatusOf(s: State, d: DispenserId): Option<DispenserStatus> {
    if d in s.dispensers then Some(s.dispensers[d].status) else None
  }

  // -------------------------------------------------- what touches a status

  lemma RegisterStatus(s: State, ids: seq<DispenserId>, d: DispenserId)
    ensures StatusOf(Register(s, ids), d) == if d in ids then Some(Idle) else StatusOf(s, d)
  {
    hide AskStatus;
    if ids != [] {
      var t := Register(s, ids[..|ids| - 1]);
      RegisterStatus(s, ids[..|ids| - 1], d);
      var u := SetDispenser(t, ids[|ids| - 1], NEW_DISPENSER);
      DispensersOfPieces(u, ids[|ids| - 1], "");
      assert ids == ids[..|ids| - 1] + [ids[|ids| - 1]];
    }
  }

  lemma CreateStatus(s: State, d: DispenserId, id: OrderId)
    ensures CreateOrder(s, d, id).dispensers == s.dispensers
  {
  }

  lemma FinalizeStatus(s: State, d: DispenserId)
    ensures Finalize(s, d).dispensers == s.dispensers
  {
    hide SettleSale, Push;
    var order := OrderOf(s, d);
    SettleFrame(s, order);
    var v := SetOrder(SettleSale(s, order), d, order.(finalized := true));
    DispensersOfPush(v, GaugeFor(v.tankers, order.product), Task(order.id, d, AfterFuelling), AtFinalization);
  }

  lemma PaymentStatus(s: State, id: OrderId, refused: bool)
    ensures CreatePayment(s, id, refused).dispensers == s.dispensers
  {
  }

  lemma PollOrderStatus(s: State, d: DispenserId, p: PolledOrder, refused: bool, x: DispenserId)
    requires d in s.dispensers
    ensures StatusOf(PollOrder(s, d, p, refused), x) == StatusOf(s, x)
  {
    hide Finalize, OpenSale, CreatePayment;
    if d in s.orders && s.orders[d].id == p.id {
      var u := SetOrder(NotePolled(s, d, p.id), d, s.orders[d].(status := p.status));
      var v := if p.status == Interrupted || p.status == Delivered then Finalize(u, d) else u;
      FinalizeStatus(u, d);
      DispensersOfPieces(v, "", p.id);
      PaymentStatus(OpenSale(v, p.id), p.id, refused);
    }
  }

  lemma EventStatus(s: State, e: Event, x: DispenserId)
    requires e.DeviceEvent?
    ensures StatusOf(ProcessDeviceEvent(s, e), x) == SeenNext(StatusOf(s, x), e, x)
  {
    hide ChangeOrder, RandomStatus, SelectedStatus, CreateOrder;
    var d := e.dispenser;
    var t := if e.orderChange.Some? then ChangeOrder(s, d, e.orderChange.value) else s;
    if e.orderChange.Some? {
      ChangeOrderDispensers(s, d, e.orderChange.value);
    }
    if e.statusChange.Some? {
      SecondHandlerOnlyShiftsStatus(t, d, e.statusChange.value);
      if d in t.dispensers {
        StatusStored(t, d, e.statusChange.value);
      } else {
        UnknownStays(t, d, e.statusChange.value);
      }
    } else if e.created.Some? {
      CreateStatus(t, d, e.created.value);
    }
  }

  lemma TouchStatus(s: State)
    ensures TouchBegin(s).dispensers == s.dispensers
  {
  }

  lemma GaugeStatus(s: State, g: GaugeId)
    ensures AnswerGauge(s, g).dispensers == s.dispensers
  {
  }

  lemma CancelStatus(s: State)
    ensures CancelTransaction(s).dispensers == s.dispensers
  {
    hide Push, SetSaleType;
    if s.current in s.orders {
      var order := s.orders[s.current];
      var u := SetSaleType(s, order.id, Revert);
      DispensersOfPush(u, GaugeFor(s.tankers, order.product), Task(order.id, s.current, AfterFuelling), AtCancellation);
      assert u.dispensers == s.dispensers by { SaleTypeStatus(s, order.id); }
    }
  }

  lemma SaleTypeStatus(s: State, id: OrderId)
    ensures SetSaleType(s, id, Revert).dispensers == s.dispensers
  {
  }

  lemma FailStatus(s: State, o: OrderId)
    ensures FailPayment(s, o).dispensers == s.dispensers
  {
  }

  lemma StoreStatus(s: State, d: DispenserId, status: DispenserStatus, nozzle: Option<ProductId>)
    requires d in s.dispensers
    ensures forall x :: StatusOf(StorePoll(s, d, status, nozzle), x) == if x == d then Some(status) else StatusOf(s, x)
  {
  }

  lemma StepStatus(s: State, e: Event, x: DispenserId)
    ensures StatusOf(Step(s, e), x) == SeenNext(StatusOf(s, x), e, x)
  {
    hide TouchBegin, CancelTransaction, ProcessDeviceEvent, PollOrder, StorePoll, AnswerGauge, Register, FailPayment;
    match e
    case LoadDevices(ids) => RegisterStatus(Emit(s.(dispensers := map[]), DevicesLoaded), ids, x);
    case BeginTouch => TouchStatus(s);
    case CancelTouch => CancelStatus(s);
    case DeviceEvent(_, _, _, _, _) => EventStatus(s, e, x);
    case StatusPoll(d, status, nozzle, polled, refused) =>
      if d in s.dispensers {
        StoreStatus(s, d, status, nozzle);
      }
      if d in s.dispensers && polled.Some? {
        PollOrderStatus(StorePoll(s, d, status, nozzle), d, polled.value, refused, x);
      }
    case GaugeAnswer(g) => GaugeStatus(s, g);
    case PaymentAnswer(o, _) => FailStatus(s, o);
    case _ =>
  }

  // ------------------------------------------------------------- the theorems

  /** In every run the stored status of a dispenser is the one last reported. */
  lemma {:induction false} StoredStatusIsLastSeen(events: seq<Event>, d: DispenserId)
    ensures StatusOf(After(events), d) == StatusSeen(events, d)
  {
    if events != [] {
      StoredStatusIsLastSeen(events[..|events| - 1], d);
      StepStatus(After(events[..|events| - 1]), events[|events| - 1], d);
      hide Step, StatusOf, SeenNext;
    }
  }

  /** The event says that the dispenser is idle, and the report before it said that it was fuelling. */
  predicate Returns(events: seq<Event>, e: Event, d: DispenserId) {
    && e.DeviceEvent? && e.dispenser == d && e.statusChange.Some? && e.statusChange.value.status == Idle
    && (StatusSeen(events, d) == Some(Complete) || StatusSeen(events, d) == Some(Fuelling))
  }

  /** A return is noticed exactly by an idle event that is the first report after one of COMPLETE or FUELLING. */
  lemma ReturnNoticedIff(events: seq<Event>, e: Event, d: DispenserId)
    ensures Issued(After(events), Step(After(events), e), PistolReturned(d)) <==> Returns(events, e, d)
  {
    StoredStatusIsLastSeen(events, d);
    IssuedIffCause(After(events), e, PistolReturned(d));
    hide Step, Issued, StatusSeen, After;
  }

  /** Neither a report of the dispenser's status nor a loading of devices. */
  predicate SilentAbout(more: seq<Event>, d: DispenserId) {
    forall e <- more :: !e.LoadDevices? && (e.StatusPoll? ==> e.dispenser != d) &&
                        (e.DeviceEvent? && e.dispenser == d ==> e.statusChange.None?)
  }

  lemma SeenAppend(events: seq<Event>, e: Event, d: DispenserId)
    ensures StatusSeen(events + [e], d) == SeenNext(StatusSeen(events, d), e, d)
  {
    assert (events + [e])[..|events|] == events;
  }

  /** From `before` on, no return of `d` was recorded. */
  predicate NoReturnSince(before: seq<Output>, after: seq<Output>, d: DispenserId) {
    before <= after && forall i | |before| <= i < |after| :: after[i] != PistolReturned(d)
  }

  lemma StepWithoutReturn(start: seq<Output>, events: seq<Event>, e: Event, d: DispenserId)
    requires NoReturnSince(start, After(events).trace, d) && !Returns(events, e, d)
    ensures NoReturnSince(start, After(events + [e]).trace, d)
  {
    hide Step, After, Returns, Cause;
    var s := After(events);
    AfterOneMore(events, e);
    ReturnNoticedIff(events, e, d);
    EveryOutputIsCaused(s, e);
    NotIssued(s, Step(s, e), PistolReturned(d));
  }

  lemma NotIssued(s: State, t: State, o: Output)
    requires s.trace <= t.trace && !Issued(s, t, o)
    ensures forall i | |s.trace| <= i < |t.trace| :: t.trace[i] != o
  {
  }

  lemma {:induction false} SilenceHidesNothing(start: seq<Output>, events: seq<Event>, more: seq<Event>, d: DispenserId)
    requires NoReturnSince(start, After(events).trace, d) && SilentAbout(more, d)
    requires StatusSeen(events, d) == None || StatusSeen(events, d) == Some(Idle)
    ensures NoReturnSince(start, After(events + more).trace, d)
    ensures StatusSeen(events + more, d) == StatusSeen(events, d)
    decreases |more|
  {
    hide After, NoReturnSince;
    if more == [] {
      assert events + more == events;
    } else {
      var less, e := more[..|more| - 1], more[|more| - 1];
      assert events + more == events + less + [e];
      SilenceHidesNothing(start, events, less, d);
      SeenAppend(events + less, e, d);
      StepWithoutReturn(start, events + less, e, d);
    }
  }

  lemma {:induction false} ReturnsGrowByMarks(before: seq<Output>, after: seq<Output>, d: DispenserId)
    requires NoReturnSince(before, after, d)
    ensures var m, n := MeetingOf(before, d), MeetingOf(after, d);
            m.before + m.after == 0 ==> n.before + n.after == 0
    decreases |after|
  {
    if |after| == |before| {
      assert after == before;
    } else {
      ReturnsGrowByMarks(before, after[..|after| - 1], d);
    }
  }

  /** A poll that is the first to see the dispenser idle again makes the return go unnoticed, however many other events
      come before the idle event: an order that was not closed stays open, and no last task is queued for it, even
      when the poll itself finalizes it. */
  lemma PollHidesReturn(events: seq<Event>, poll: Event, more: seq<Event>, idle: Event, d: DispenserId)
    requires poll.StatusPoll? && poll.dispenser == d && poll.status == Idle
    requires SilentAbout(more, d) && !OrderOf(After(events), d).closed
    ensures var t := After(events + [poll] + more + [idle]);
            idle.DeviceEvent? ==> !OrderOf(t, d).closed && MeetingOf(t.trace, d).queued == 0
  {
    hide After, Step, NoReturnSince, MeetingOf, Inv;
    var start := After(events).trace;
    NothingSince(start, d);
    SeenAppend(events, poll, d);
    StepWithoutReturn(start, events, poll, d);
    SilenceHidesNothing(start, events + [poll], more, d);
    var all := events + [poll] + more;
    if idle.DeviceEvent? {
      StepWithoutReturn(start, all, idle, d);
      ReturnsGrowByMarks(start, After(all + [idle]).trace, d);
      RunsKeepInv(Key("", d, ""), events);
      RunsKeepInv(Key("", d, ""), all + [idle]);
      OpenMeansNoReturn(After(events), d);
      OpenMeansNoReturn(After(all + [idle]), d);
    }
  }

  lemma NothingSince(trace: seq<Output>, d: DispenserId)
    ensures NoReturnSince(trace, trace, d)
  {
  }

  lemma OpenMeansNoReturn(s: State, d: DispenserId)
    requires Inv(Key("", d, ""), s)
    ensures var m := MeetingOf(s.trace, d);
            (OrderOf(s, d).closed <==> m.before + m.after > 0) && (m.before + m.after == 0 ==> m.queued == 0)
  {
    hide MeetingOf;
  }

  // ------------------------------------------------- devices loaded only once

  lemma LoadingIsRecorded(s: State, ids: seq<DispenserId>)
    ensures Count(Step(s, LoadDevices(ids)).trace, AnyLoading) > 0
  {
    hide Count;
    var t := Emit(s.(dispensers := map[]), DevicesLoaded);
    CountAppend(s.trace, DevicesLoaded, AnyLoading);
    RegisterExtends(t, ids);
    CountGrows(t.trace, Register(t, ids).trace, AnyLoading);
    hide Register;
  }

  lemma {:induction false} KnownMeansLoaded(events: seq<Event>, d: DispenserId)
    requires d in After(events).dispensers
    ensures Count(After(events).trace, AnyLoading) > 0
  {
    hide Count, Step, Cause;
    var before, e := events[..|events| - 1], events[|events| - 1];
    var s := After(before);
    StepStatus(s, e, d);
    if e.LoadDevices? {
      LoadingIsRecorded(s, e.ids);
    } else {
      KnownMeansLoaded(before, d);
      EveryOutputIsCaused(s, e);
      CountGrows(s.trace, After(events).trace, AnyLoading);
    }
  }

  lemma ConfirmedOnKnown(s: State, e: Event, o: Output)
    requires o.PayConfirm? && Cause(s, e, o)
    ensures o.dispenser in s.dispensers
  {
  }

  lemma ConfirmedAfterLoading(events: seq<Event>, i: nat)
    requires i < |After(events).trace| && After(events).trace[i].PayConfirm?
    ensures Count(After(events).trace[..i], AnyLoading) > 0
  {
    hide After, Count, Cause;
    var trace := After(events).trace;
    var k := CauseInRun(events, i);
    ConfirmedOnKnown(After(events[..k]), events[k], trace[i]);
    KnownMeansLoaded(events[..k], trace[i].dispenser);
    CountGrows(After(events[..k]).trace, trace[..i], AnyLoading);
  }

  predicate StaleWhenReloaded(trace: seq<Output>, d: DispenserId) {
    var m, n := MeetingOf(trace, d), Count(trace, AnyLoading);
    (m.finalized ==> n >= 1) && (m.stale || m.strays > 0 ==> n >= 2)
  }

  lemma StaleOneMore(less: seq<Output>, o: Output, d: DispenserId)
    requires StaleWhenReloaded(less, d) && (o.PayConfirm? ==> Count(less, AnyLoading) > 0)
    ensures StaleWhenReloaded(less + [o], d)
  {
    hide Count, MeetingOf;
    CountAppend(less, o, AnyLoading);
    MeetingAppend(less, o, d);
  }

  predicate ConfirmsKnown(trace: seq<Output>, i: nat)
    requires i < |trace|
  {
    trace[i].PayConfirm? ==> Count(trace[..i], AnyLoading) > 0
  }

  lemma {:induction false} StaleMeansLoadedTwice(trace: seq<Output>, d: DispenserId)
    requires forall i :: 0 <= i < |trace| ==> ConfirmsKnown(trace, i)
    ensures StaleWhenReloaded(trace, d)
  {
    if trace != [] {
      hide StaleWhenReloaded, Count;
      var less, o := trace[..|trace| - 1], trace[|trace| - 1];
      forall i | 0 <= i < |less| ensures ConfirmsKnown(less, i) {
        assert ConfirmsKnown(trace, i) && less[..i] == trace[..i];
      }
      StaleMeansLoadedTwice(less, d);
      assert ConfirmsKnown(trace, |less|) && trace == less + [o];
      StaleOneMore(less, o, d);
    }
  }

  /** While the devices are loaded only once, an order whose pistol returns at most once gets exactly one last task as
      soon as it is both finalized and closed, and the task carries the order's id. */
  lemma LoadedOnceOneOwnTask(events: seq<Event>, d: DispenserId)
    requires Count(After(events).trace, AnyLoading) <= 1
    ensures var s := After(events);
            var m, order := MeetingOf(s.trace, d), OrderOf(s, d);
            && m.own
            && (m.before + m.after <= 1 ==> m.queued == if order.finalized && order.closed then 1 else 0)
  {
    hide After, Count, MeetingOf;
    var trace := After(events).trace;
    forall i | 0 <= i < |trace| ensures ConfirmsKnown(trace, i) {
      if trace[i].PayConfirm? {
        ConfirmedAfterLoading(events, i);
      }
    }
    StaleMeansLoadedTwice(trace, d);
    RunsKeepInv(Key("", d, ""), events);
    OwnUnlessStray(After(events), d);
  }

  lemma OwnUnlessStray(s: State, d: DispenserId)
    requires Inv(Key("", d, ""), s)
    ensures var m, order := MeetingOf(s.trace, d), OrderOf(s, d);
            && (m.strays == 0 ==> m.own)
            && (m.before + m.after <= 1 ==> m.queued == if order.finalized && order.closed then 1 else 0)
  {
    hide MeetingOf;
  }
}
