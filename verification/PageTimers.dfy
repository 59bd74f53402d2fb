/** The timers that show a page later: a list in start order, from which a check removes the due ones in place. */
module PageTimers {
  /** Clock ticks, in nanoseconds, of a clock that never goes back. */
  const TICKS_PER_SECOND := 1_000_000_000

  /** `serial` tells the timers of a run apart; the display sees only the page. */
  datatype Timer = Timer(serial: nat, start: nat, timeoutSeconds: int, page: nat)

  /** The elapsed time is cut to whole seconds before it is compared. */
  predicate Due(t: Timer, now: nat) {
    t.start <= now && (now - t.start) / TICKS_PER_SECOND >= t.timeoutSeconds
  }

  /** Cutting to whole seconds makes no timer early or late. */
  lemma DueIff(t: Timer, now: nat)
    requires t.start <= now
    ensures Due(t, now) <==> now >= t.start + t.timeoutSeconds * TICKS_PER_SECOND
  {
  }

  function DueOf(timers: seq<Timer>, now: nat): seq<Timer> {
    if timers == [] then []
    else
      var t := timers[|timers| - 1];
      DueOf(timers[..|timers| - 1], now) + if Due(t, now) then [t] else []
  }

  function Waiting(timers: seq<Timer>, now: nat): seq<Timer> {
    if timers == [] then []
    else
      var t := timers[|timers| - 1];
      Waiting(timers[..|timers| - 1], now) + if Due(t, now) then [] else [t]
  }

  // ----------------------------------------------------------------- runs

  datatype Operation = StartTimer(timeoutSeconds: int, page: nat) | CheckTimers | ClearTimers

  datatype Event = Event(now: nat, operation: Operation)

  function Step(timers: seq<Timer>, serial: nat, e: Event): seq<Timer> {
    match e.operation
    case StartTimer(timeout, page) => timers + [Timer(serial, e.now, timeout, page)]
    case CheckTimers => Waiting(timers, e.now)
    case ClearTimers => []
  }

  /** The timers after a run; a timer's serial is the position of the event that started it. */
  function After(events: seq<Event>): seq<Timer> {
    if events == [] then []
    else Step(After(events[..|events| - 1]), |events| - 1, events[|events| - 1])
  }

  /** The timers whose pages the event at `j` shows, in the order it shows them. */
  function FiredAt(events: seq<Event>, j: nat): seq<Timer>
    requires j < |events|
  {
    if events[j].operation.CheckTimers? then DueOf(After(events[..j]), events[j].now) else []
  }

  predicate Ticking(events: seq<Event>) {
    forall i, j :: 0 <= i < j < |events| ==> events[i].now <= events[j].now
  }

  /** The timer the event at `i` starts. */
  function Started(events: seq<Event>, i: nat): Timer
    requires i < |events| && events[i].operation.StartTimer?
  {
    Timer(i, events[i].now, events[i].operation.timeoutSeconds, events[i].operation.page)
  }

  /** The event ends a waiting timer: it clears all, or checks when the timer's time has come. */
  predicate Ends(e: Event, t: Timer) {
    e.operation.ClearTimers? || (e.operation.CheckTimers? && e.now >= t.start + t.timeoutSeconds * TICKS_PER_SECOND)
  }

  /** Read off the events alone: the event at `i` starts a timer and none of the next ones up to `j` ends it. */
  predicate StillRuns(events: seq<Event>, i: nat, j: nat)
    requires j <= |events|
  {
    i < j && events[i].operation.StartTimer? && forall m :: i < m < j ==> !Ends(events[m], Started(events, i))
  }

  predicate InOrder(timers: seq<Timer>) {
    forall a, b :: 0 <= a < b < |timers| ==> timers[a].serial < timers[b].serial
  }

  lemma {:induction false} PartsOf(timers: seq<Timer>, now: nat, t: Timer)
    ensures t in DueOf(timers, now) <==> t in timers && Due(t, now)
    ensures t in Waiting(timers, now) <==> t in timers && !Due(t, now)
  {
    if timers != [] {
      PartsOf(timers[..|timers| - 1], now, t);
      assert timers == timers[..|timers| - 1] + [timers[|timers| - 1]];
    }
  }

  lemma {:induction false} PartsInOrder(timers: seq<Timer>, now: nat)
    requires InOrder(timers)
    ensures InOrder(DueOf(timers, now)) && InOrder(Waiting(timers, now))
  {
    if timers != [] {
      var less, t := timers[..|timers| - 1], timers[|timers| - 1];
      PartsInOrder(less, now);
      forall u ensures (u in DueOf(less, now) || u in Waiting(less, now)) ==> u.serial < t.serial {
        PartsOf(less, now, u);
      }
    }
  }

  /** In every run the timers are in start order, and each is the one its serial says. */
  lemma {:induction false} TimersInOrder(events: seq<Event>)
    ensures InOrder(After(events))
    ensures forall t <- After(events) :: t.serial < |events| && events[t.serial].operation.StartTimer? &&
                                         t == Started(events, t.serial)
  {
    hide Due, DueOf, Waiting;
    if events != [] {
      var before, e := events[..|events| - 1], events[|events| - 1];
      TimersInOrder(before);
      PartsInOrder(After(before), e.now);
      forall t | t in After(events)
        ensures t.serial < |events| && events[t.serial].operation.StartTimer? && t == Started(events, t.serial)
      {
        PartsOf(After(before), e.now, t);
      }
    }
  }

  lemma StillRunsBefore(events: seq<Event>, i: nat, j: nat)
    requires i < j < |events|
    ensures StillRuns(events, i, j + 1) <==>
            StillRuns(events, i, j) && !Ends(events[j], Started(events, i))
  {
  }

  lemma {:induction false} StillRunsPrefix(events: seq<Event>, i: nat, j: nat)
    requires j <= |events|
    ensures StillRuns(events[..j], i, j) <==> StillRuns(events, i, j)
  {
    if i < j && events[i].operation.StartTimer? {
      assert forall m :: i < m < j ==> events[..j][m] == events[m];
    }
  }

  /** A timer waits exactly while no event has ended it. */
  lemma {:induction false} WaitsIff(events: seq<Event>, i: nat)
    requires Ticking(events)
    ensures i < |events| && events[i].operation.StartTimer? ==>
              (Started(events, i) in After(events) <==> StillRuns(events, i, |events|))
  {
    hide Due, DueOf, Waiting;
    if i < |events| && events[i].operation.StartTimer? {
      var j := |events| - 1;
      var before, e, t := events[..j], events[j], Started(events, i);
      if i == j {
        assert t in After(events);
      } else {
        WaitsIff(before, i);
        StillRunsPrefix(events, i, j);
        StillRunsBefore(events, i, j);
        PartsOf(After(before), e.now, t);
        DueIff(t, e.now);
      }
    }
  }

  /** The fate of every timer, read off the events alone: the event at `j` shows its page exactly when it is a
      check at or after start plus timeout, and neither a clear nor an earlier such check came in between. */
  lemma FiresIff(events: seq<Event>, i: nat, j: nat)
    requires Ticking(events) && i < |events| && events[i].operation.StartTimer? && j < |events|
    ensures Started(events, i) in FiredAt(events, j) <==>
            StillRuns(events, i, j) && events[j].operation.CheckTimers? && Ends(events[j], Started(events, i))
  {
    var before, t := events[..j], Started(events, i);
    TimersInOrder(before);
    PartsOf(After(before), events[j].now, t);
    if i < j {
      WaitsIff(before, i);
      StillRunsPrefix(events, i, j);
      DueIff(t, events[j].now);
    }
  }

  /** No event shows the page of a timer twice, and each shows its pages in the order the timers were started. */
  lemma FiredInOrder(events: seq<Event>, j: nat)
    requires j < |events|
    ensures InOrder(FiredAt(events, j))
  {
    TimersInOrder(events[..j]);
    PartsInOrder(After(events[..j]), events[j].now);
  }

  /** Two events never fire the same timer. */
  lemma FiredOnce(events: seq<Event>, i: nat, j: nat, k: nat)
    requires Ticking(events) && i < |events| && events[i].operation.StartTimer? && j < k < |events|
    ensures !(Started(events, i) in FiredAt(events, j) && Started(events, i) in FiredAt(events, k))
  {
    FiresIff(events, i, j);
    FiresIff(events, i, k);
  }

  // --------------------------------------------------------------- the object

  /** The list.  What a timer does besides showing its page only clears the chosen dispenser or the typed text;
      it neither starts nor clears timers. */
  class PageTimers {
    var timers: seq<Timer>

    constructor ()
      ensures timers == []
    {
      timers := [];
    }

    method StartPageTimer(timeoutSeconds: int, page: nat, now: nat, serial: nat)
      modifies this
      ensures timers == Step(old(timers), serial, Event(now, StartTimer(timeoutSeconds, page)))
    {
      timers := timers + [Timer(serial, now, timeoutSeconds, page)];
    }

    method Clear()
      modifies this
      ensures forall serial, now :: timers == Step(old(timers), serial, Event(now, ClearTimers))
    {
      timers := [];
    }

    /** Erases while it walks; `shown` are the timers whose pages it sent, in order. */
    method Check(now: nat) returns (shown: seq<Timer>)
      modifies this
      ensures shown == DueOf(old(timers), now)
      ensures forall serial :: timers == Step(old(timers), serial, Event(now, CheckTimers))
    {
      shown := [];
      var i := 0;
      ghost var seen := 0;
      while i < |timers|
        invariant 0 <= i <= |timers| && 0 <= seen <= |old(timers)|
        invariant timers[i..] == old(timers)[seen..] && timers[..i] == Waiting(old(timers)[..seen], now)
        invariant shown == DueOf(old(timers)[..seen], now)
        decreases |timers| - i
      {
        assert old(timers)[..seen + 1][..seen] == old(timers)[..seen];
        assert timers[i] == old(timers)[seen];
        if now >= timers[i].start && (now - timers[i].start) / TICKS_PER_SECOND >= timers[i].timeoutSeconds {
          shown := shown + [timers[i]];
          assert (timers[..i] + timers[i + 1..])[i..] == timers[i..][1..];
          timers := timers[..i] + timers[i + 1..];
        } else {
          assert timers[i + 1..] == timers[i..][1..];
          assert timers[..i + 1] == timers[..i] + [timers[i]];
          i := i + 1;
        }
        seen := seen + 1;
      }
      assert seen == |old(timers)| by { assert |timers[i..]| == 0; }
      assert old(timers)[..seen] == old(timers) && timers[..i] == timers;
    }
  }
}
