/** The throttled serial writer: one asynchronous operation at a time, a FIFO of packets and a limit of
  64 bytes a burst.

  The operating system side is nondeterministic: it completes an outstanding write (with success, abort or
  another error) and it calls the throttle timer's handler (with or without an error) at any later time. */
module SerialTransport {
  import opened Basics

  const MAX_BURST_BYTES := 64

  type Packet = seq<Byte>

  datatype WriteResult = Done | Aborted | Failed

  datatype Event =
    | Start
    | Stop
    | Send(packet: Packet)
    | WriteFinished(result: WriteResult)
    | TimerFired(ok: bool)

  /** `queue`, `running`, `inProgress` and `burstBytes` are the writer's own fields; `writes` and `timers`
      count the operations handed to the system and not yet called back.  The rest is history: the packets
      accepted, those that left the queue (with the outcome), and the bursts started. */
  datatype State = State(
    running: bool,
    queue: seq<Packet>,
    inProgress: bool,
    burstBytes: nat,
    writes: nat,
    timers: nat,
    accepted: seq<Packet>,
    finished: seq<(Packet, bool)>,
    closedBursts: seq<seq<Packet>>,
    burst: seq<Packet>)

  const INITIAL := State(false, [], false, 0, 0, 0, [], [], [], [])

  // ------------------------------------------------ what each callback does

  function ResetBurst(s: State): State {
    s.(burstBytes := 0, closedBursts := s.closedBursts + [s.burst], burst := [])
  }

  function StartWrite(s: State): State
    requires s.queue != []
  {
    s.(burstBytes := s.burstBytes + |s.queue[0]|, writes := s.writes + 1, burst := s.burst + [s.queue[0]])
  }

  function NextWrite(s: State): State {
    if s.queue == [] then ResetBurst(s.(inProgress := false))
    else if s.burstBytes > 0 && s.burstBytes + |s.queue[0]| > MAX_BURST_BYTES then s.(timers := s.timers + 1)
    else StartWrite(s)
  }

  function PopFront(s: State, written: bool): State
    requires s.queue != []
  {
    s.(queue := s.queue[1..], finished := s.finished + [(s.queue[0], written)])
  }

  function Outcomes(packets: seq<Packet>, written: bool): seq<(Packet, bool)> {
    seq(|packets|, i requires 0 <= i < |packets| => (packets[i], written))
  }

  /** The system calls back only for operations it was handed. */
  predicate Enabled(s: State, e: Event) {
    match e
    case WriteFinished(_) => s.writes > 0
    case TimerFired(_) => s.timers > 0
    case _ => true
  }

  ghost function Step(s: State, e: Event): State
    requires Inv(s) && Enabled(s, e)
  {
    match e
    case Start => s.(running := true)
    case Stop => s.(running := false)
    case Send(p) =>
      if !s.running then s
      else
        var t := s.(queue := s.queue + [p], accepted := s.accepted + [p]);
        if t.inProgress then t else NextWrite(t.(inProgress := true))
    case WriteFinished(result) =>
      var t := s.(writes := s.writes - 1);
      if result == Done then NextWrite(PopFront(t, true))
      else
        var u := if result == Failed then t.(queue := [], finished := t.finished + Outcomes(t.queue, false)) else t;
        ResetBurst(u.(inProgress := false))
    case TimerFired(ok) =>
      var t := s.(timers := s.timers - 1);
      if ok && s.running then StartWrite(ResetBurst(t)) else t
  }

  // ----------------------------------------------------------------- safety

  function Packets(log: seq<(Packet, bool)>): seq<Packet> {
    seq(|log|, i requires 0 <= i < |log| => log[i].0)
  }

  function Bytes(packets: seq<Packet>): nat {
    if packets == [] then 0 else Bytes(packets[..|packets| - 1]) + |packets[|packets| - 1]|
  }

  function NonEmpty(packets: seq<Packet>): nat {
    if packets == [] then 0
    else NonEmpty(packets[..|packets| - 1]) + if packets[|packets| - 1] == [] then 0 else 1
  }

  /** A burst stays within the limit, or it carries a single packet that alone is larger. */
  predicate BurstAllowed(burst: seq<Packet>) {
    Bytes(burst) <= MAX_BURST_BYTES || NonEmpty(burst) == 1
  }

  ghost predicate Inv(s: State) {
    && s.writes + s.timers <= 1
    && (s.inProgress ==> s.queue != [])
    && (s.writes + s.timers == 1 ==> s.inProgress)
    && s.accepted == Packets(s.finished) + s.queue
    && s.burstBytes == Bytes(s.burst)
    && BurstAllowed(s.burst)
    && (NonEmpty(s.burst) == 0 <==> Bytes(s.burst) == 0)
    && forall b | b in s.closedBursts :: BurstAllowed(b)
  }

  lemma PacketsConcat(a: seq<(Packet, bool)>, b: seq<(Packet, bool)>)
    ensures Packets(a + b) == Packets(a) + Packets(b)
  {
  }

  lemma StartWriteKeepsInv(s: State)
    requires Inv(s) && s.writes + s.timers == 0 && s.inProgress
    requires s.burstBytes == 0 || s.burstBytes + |s.queue[0]| <= MAX_BURST_BYTES
    ensures Inv(StartWrite(s))
  {
    var t := StartWrite(s);
    assert t.burst[..|t.burst| - 1] == s.burst;
  }

  lemma NextWriteKeepsInv(s: State)
    requires s.writes + s.timers == 0 && s.inProgress
    requires Inv(s.(inProgress := false))
    ensures Inv(NextWrite(s))
  {
    if s.queue != [] && !(s.burstBytes > 0 && s.burstBytes + |s.queue[0]| > MAX_BURST_BYTES) {
      StartWriteKeepsInv(s);
    }
  }

  lemma SendKeepsInv(s: State, p: Packet)
    requires Inv(s)
    ensures Inv(Step(s, Send(p)))
  {
    if s.running {
      var t := s.(queue := s.queue + [p], accepted := s.accepted + [p]);
      assert Inv(t);
      if !t.inProgress {
        NextWriteKeepsInv(t.(inProgress := true));
      }
    }
    hide NextWrite, BurstAllowed;
  }

  lemma DoneKeepsInv(s: State)
    requires Inv(s) && Enabled(s, WriteFinished(Done))
    ensures Inv(Step(s, WriteFinished(Done)))
  {
    var t := s.(writes := s.writes - 1);
    PacketsConcat(t.finished, [(t.queue[0], true)]);
    assert Packets([(t.queue[0], true)]) == [t.queue[0]];
    assert [t.queue[0]] + t.queue[1..] == t.queue;
    NextWriteKeepsInv(PopFront(t, true));
    hide NextWrite;
  }

  lemma ErrorKeepsInv(s: State, result: WriteResult)
    requires Inv(s) && Enabled(s, WriteFinished(result)) && result != Done
    ensures Inv(Step(s, WriteFinished(result)))
  {
    PacketsConcat(s.finished, Outcomes(s.queue, false));
    assert Packets(Outcomes(s.queue, false)) == s.queue;
    hide Packets, Outcomes;
  }

  lemma StepKeepsInv(s: State, e: Event)
    requires Inv(s) && Enabled(s, e)
    ensures Inv(Step(s, e))
  {
    match e
    case Send(p) => SendKeepsInv(s, p); hide Step;
    case WriteFinished(result) =>
      if result == Done {
        DoneKeepsInv(s);
      } else {
        ErrorKeepsInv(s, result);
      }
      hide Step;
    case TimerFired(ok) =>
      if ok && s.running {
        StartWriteKeepsInv(ResetBurst(s.(timers := s.timers - 1)));
      }
    case _ =>
  }

  // ------------------------------------------------------------- whole runs

  ghost predicate IsRun(events: seq<Event>)
    decreases |events|, 0
  {
    events == [] ||
    (IsRun(events[..|events| - 1]) && Enabled(After(events[..|events| - 1]), events[|events| - 1]))
  }

  /** In every run: at most one operation is outstanding, and then the writer is marked busy with a packet
      to send; packets leave the queue in the order `send` accepted them; the counter equals the bytes
      started since its reset; and no burst exceeds 64 bytes unless one packet alone does. */
  ghost function After(events: seq<Event>): (s: State)
    requires IsRun(events)
    ensures Inv(s)
    decreases |events|, 1
  {
    if events == [] then INITIAL
    else
      var s := After(events[..|events| - 1]);
      StepKeepsInv(s, events[|events| - 1]);
      Step(s, events[|events| - 1])
  }

  /** The packet at the head is handed to the system at once, or the writer waits for the throttle timer. */
  predicate Fits(burst: seq<Packet>, p: Packet) {
    Bytes(burst) == 0 || Bytes(burst) + |p| <= 64
  }

  /** Behind a written packet, and behind a packet sent to an idle writer: an empty queue ends the burst; else the next
      packet is written at once if and only if nothing was written in this burst or it still fits in 64 bytes, and
      otherwise the timer is set. */
  lemma WrittenAtOnceIff(s: State, e: Event)
    requires Inv(s) && Enabled(s, e)
    requires e == WriteFinished(Done) || (e.Send? && s.running && !s.inProgress)
    ensures var t := Step(s, e);
            && t.queue == (if e.Send? then s.queue + [e.packet] else s.queue[1..])
            && (if t.queue == [] then !t.inProgress && (t.writes, t.timers, t.burst) == (0, 0, [])
                else if Fits(s.burst, t.queue[0]) then (t.writes, t.timers, t.burst) == (1, 0, s.burst + [t.queue[0]])
                else (t.writes, t.timers, t.burst) == (0, 1, s.burst))
  {
  }

  /** After the throttle timer a new burst starts with the packet at the head. */
  lemma TimerStartsBurst(s: State)
    requires Inv(s) && Enabled(s, TimerFired(true)) && s.running
    ensures var t := Step(s, TimerFired(true));
            t.queue == s.queue && (t.writes, t.timers, t.burst) == (1, 0, [s.queue[0]])
  {
    assert [] + [s.queue[0]] == [s.queue[0]];
  }

  /** An aborted write leaves everything queued; any other error drops it all, as not written; both end the burst. */
  lemma ErrorsEndBurst(s: State, result: WriteResult)
    requires Inv(s) && Enabled(s, WriteFinished(result)) && result != Done
    ensures var t := Step(s, WriteFinished(result));
            && !t.inProgress && (t.writes, t.timers, t.burst) == (0, 0, [])
            && (result == Aborted ==> t.queue == s.queue && t.finished == s.finished)
            && (result == Failed ==>
                  && t.queue == [] && |t.finished| == |s.finished| + |s.queue|
                  && t.finished[..|s.finished|] == s.finished
                  && forall i :: 0 <= i < |s.queue| ==> t.finished[|s.finished| + i] == (s.queue[i], false))
  {
  }

  lemma IdleStep(s: State, e: Event)
    requires Inv(s) && Enabled(s, e) && (!s.inProgress ==> s.burst == [])
    requires s.writes == 1 ==> s.burst != [] && s.burst[|s.burst| - 1] == s.queue[0]
    ensures var t := Step(s, e);
            && (!t.inProgress ==> t.burst == [])
            && (t.writes == 1 ==> t.burst != [] && t.burst[|t.burst| - 1] == t.queue[0])
  {
  }

  /** In every run an idle writer has no burst open, so that a packet sent to it is written at once; and what is being
      written is the head of the queue. */
  lemma {:induction false} IdleHasNoBurst(events: seq<Event>)
    requires IsRun(events)
    ensures var s := After(events);
            && (!s.inProgress ==> s.burst == [])
            && (s.writes == 1 ==> s.burst != [] && s.burst[|s.burst| - 1] == s.queue[0])
  {
    if events != [] {
      IdleHasNoBurst(events[..|events| - 1]);
      IdleStep(After(events[..|events| - 1]), events[|events| - 1]);
      hide Step;
    }
  }

  /** A throttle timer that was cancelled, or fired after `stop`, does nothing at all. */
  ghost predicate LostTimer(events: seq<Event>) {
    events != [] &&
    (LostTimer(events[..|events| - 1]) ||
     (IsRun(events) && events[|events| - 1].TimerFired? &&
      !(events[|events| - 1].ok && After(events[..|events| - 1]).running)))
  }

  /** The busy flag means an operation is outstanding in exactly the runs without a lost timer.
      After one, the flag stays set with nothing outstanding. */
  lemma {:induction false} BusyMeansOutstandingIff(events: seq<Event>)
    requires IsRun(events)
    ensures var s := After(events);
            if LostTimer(events) then s.inProgress && s.writes + s.timers == 0
            else s.inProgress <==> s.writes + s.timers == 1
  {
    if events != [] {
      BusyMeansOutstandingIff(events[..|events| - 1]);
    }
  }

  ghost predicate Never(result: WriteResult, events: seq<Event>) {
    forall i | 0 <= i < |events| :: events[i] != WriteFinished(result)
  }

  lemma RunPrefix(events: seq<Event>, more: seq<Event>)
    requires IsRun(events + more)
    ensures IsRun(events)
    decreases |more|
  {
    if more == [] {
      assert events + more == events;
    } else {
      var less := more[..|more| - 1];
      assert (events + more)[..|events + more| - 1] == events + less;
      RunPrefix(events, less);
    }
  }

  lemma LostStaysLost(events: seq<Event>, e: Event)
    requires LostTimer(events)
    ensures LostTimer(events + [e])
  {
    assert (events + [e])[..|events|] == events;
  }

  lemma StuckStep(s: State, e: Event)
    requires Inv(s) && Enabled(s, e) && s.inProgress && s.writes + s.timers == 0
    ensures var t := Step(s, e);
            (t.finished, t.closedBursts, t.burst) == (s.finished, s.closedBursts, s.burst)
  {
    hide Inv;
  }

  /** A lost timer is the end: in every continuation of such a run no write is started, no packet leaves the queue,
      and no operation is outstanding. */
  lemma {:induction false} NothingWrittenAfterLostTimer(events: seq<Event>, more: seq<Event>)
    requires IsRun(events) && IsRun(events + more) && LostTimer(events)
    ensures LostTimer(events + more)
    ensures var s, t := After(events), After(events + more);
            (t.finished, t.closedBursts, t.burst) == (s.finished, s.closedBursts, s.burst) && t.writes + t.timers == 0
    decreases |more|
  {
    BusyMeansOutstandingIff(events + more);
    if more == [] {
      assert events + more == events;
    } else {
      var less, e := more[..|more| - 1], more[|more| - 1];
      assert (events + more)[..|events + more| - 1] == events + less;
      assert events + more == events + less + [e];
      NothingWrittenAfterLostTimer(events, less);
      LostStaysLost(events + less, e);
      BusyMeansOutstandingIff(events + less);
      StuckStep(After(events + less), e);
      hide Step;
    }
  }

  /** A burst is full when the transport is stopped; the cancelled timer is the lost one. */
  function StoppedWhileThrottled(p: Packet): seq<Event> {
    [Start] + [Send(p)] + [Send(p)] + [WriteFinished(Done)] + [Stop] + [TimerFired(false)]
  }

  lemma RunOneMore(events: seq<Event>, e: Event)
    requires IsRun(events) && Enabled(After(events), e)
    ensures IsRun(events + [e]) && After(events + [e]) == Step(After(events), e)
  {
    assert (events + [e])[..|events|] == events;
  }

  /** Timers do get lost: stopping the transport between two bursts leaves a packet that is never written, even when
      the transport is started again and more is sent. */
  lemma LostTimerRun(p: Packet, more: seq<Event>)
    requires 32 < |p| <= 64 && IsRun(StoppedWhileThrottled(p) + more)
    ensures var events := StoppedWhileThrottled(p);
            && IsRun(events) && LostTimer(events) && After(events).queue == [p]
            && After(events + more).finished == [(p, true)] && After(events + more).inProgress
  {
    hide Step, After;
    LostTimerState(p);
    NothingWrittenAfterLostTimer(StoppedWhileThrottled(p), more);
    BusyMeansOutstandingIff(StoppedWhileThrottled(p) + more);
  }

  lemma LostTimerState(p: Packet)
    requires 32 < |p| <= 64
    ensures var events := StoppedWhileThrottled(p);
            && IsRun(events) && LostTimer(events)
            && After(events).queue == [p] && After(events).finished == [(p, true)]
  {
    hide Inv;
    assert [] + [Start] == [Start];
    EmptyRun();
    RunOneMore([], Start);
    RunOneMore([Start], Send(p));
    RunOneMore([Start] + [Send(p)], Send(p));
    var sent := [Start] + [Send(p)] + [Send(p)];
    RunOneMore(sent, WriteFinished(Done));
    RunOneMore(sent + [WriteFinished(Done)], Stop);
    RunOneMore(sent + [WriteFinished(Done)] + [Stop], TimerFired(false));
    var all := sent + [WriteFinished(Done)] + [Stop] + [TimerFired(false)];
    assert all[..|all| - 1] == sent + [WriteFinished(Done)] + [Stop];
  }

  lemma EmptyRun()
    ensures IsRun([]) && After([]) == INITIAL
  {
  }

  /** The latest thing that concerned the writer, which Start, Stop and sends to a stopped one do not, was an aborted
      write. */
  function EndsAborted(events: seq<Event>): bool {
    events != [] &&
    var before := events[..|events| - 1];
    match events[|events| - 1]
    case Start => EndsAborted(before)
    case Stop => EndsAborted(before)
    case Send(_) => !Started(before) && EndsAborted(before)
    case WriteFinished(result) => result == Aborted
    case TimerFired(_) => false
  }

  /** A busy writer always has something queued, and something is queued only for a busy writer, if and only if the
      run does not end in an aborted write. */
  lemma {:induction false} QueuedMeansBusyIff(events: seq<Event>)
    requires IsRun(events)
    ensures var s := After(events);
            (s.inProgress ==> s.queue != []) && (s.queue != [] && !s.inProgress <==> EndsAborted(events))
  {
    if events != [] {
      QueuedMeansBusyIff(events[..|events| - 1]);
      AcceptedIsSent(events[..|events| - 1]);
    }
  }

  predicate AllWritten(log: seq<(Packet, bool)>) {
    forall i :: 0 <= i < |log| ==> log[i].1
  }

  lemma StepWrites(s: State, e: Event)
    requires Inv(s) && Enabled(s, e) && e != WriteFinished(Failed) && AllWritten(s.finished)
    ensures AllWritten(Step(s, e).finished)
  {
    var f := Step(s, e).finished;
    assert f == s.finished || f[..|f| - 1] == s.finished;
  }

  /** While no write fails, every packet that left the queue was written: the packets written, followed by
      the queue, are those `send` accepted. */
  lemma {:induction false} AllAcceptedIsWritten(events: seq<Event>)
    requires IsRun(events) && Never(Failed, events)
    ensures var s := After(events);
            AllWritten(s.finished) && s.accepted == Packets(s.finished) + s.queue
  {
    if events != [] {
      var n := |events| - 1;
      AllAcceptedIsWritten(events[..n]);
      StepWrites(After(events[..n]), events[n]);
      hide Step;
    }
  }

  /** The packets handed to `send` while the transport was started, by the events alone. */
  function Started(events: seq<Event>): bool {
    events != [] &&
    match events[|events| - 1]
    case Start => true
    case Stop => false
    case _ => Started(events[..|events| - 1])
  }

  function SentWhileStarted(events: seq<Event>): seq<Packet> {
    if events == [] then []
    else
      var n := |events| - 1;
      SentWhileStarted(events[..n]) +
      if events[n].Send? && Started(events[..n]) then [events[n].packet] else []
  }

  /** Every packet sent while started is accepted, once and in order, and nothing else is. */
  lemma AcceptedStep(s: State, e: Event)
    requires Inv(s) && Enabled(s, e)
    ensures var t := Step(s, e);
            && t.running == (e.Start? || (s.running && !e.Stop?))
            && t.accepted == s.accepted + if e.Send? && s.running then [e.packet] else []
  {
    hide Inv;
  }

  lemma {:induction false} AcceptedIsSent(events: seq<Event>)
    requires IsRun(events)
    ensures After(events).running == Started(events)
    ensures After(events).accepted == SentWhileStarted(events)
  {
    if events != [] {
      AcceptedIsSent(events[..|events| - 1]);
      AcceptedStep(After(events[..|events| - 1]), events[|events| - 1]);
      hide Step;
    }
  }

  /** The state once the system has answered every operation without an error. */
  ghost function Drained(s: State): State
    requires Inv(s) && s.running && s.writes + s.timers == 1
    decreases |s.queue|, s.timers
  {
    var e := if s.writes == 1 then WriteFinished(Done) else TimerFired(true);
    StepKeepsInv(s, e);
    var t := Step(s, e);
    if t.writes + t.timers == 0 then t else Drained(t)
  }

  lemma FirstOutcome(q: seq<Packet>)
    requires q != []
    ensures Outcomes(q, true) == [(q[0], true)] + Outcomes(q[1..], true)
    ensures Outcomes([], true) == []
  {
  }

  /** One operation answered without an error. */
  lemma DrainStep(s: State)
    requires Inv(s) && s.running && s.writes + s.timers == 1
    ensures var t := Step(s, if s.writes == 1 then WriteFinished(Done) else TimerFired(true));
            && t.running && t.writes + t.timers <= 1
            && (t.writes + t.timers == 0 ==> t.queue == [] && !t.inProgress)
            && (s.writes == 0 ==> t.writes == 1 && t.queue == s.queue && t.finished == s.finished)
            && (s.writes == 1 ==>
                  s.queue != [] && t.queue == s.queue[1..] && t.finished == s.finished + [(s.queue[0], true)])
  {
    hide BurstAllowed;
  }

  /** No throttling gets in the way for good: a busy writer empties its queue in order and goes idle. */
  lemma {:induction false} BusyWriterDrains(s: State)
    requires Inv(s) && s.running && s.writes + s.timers == 1
    ensures var t := Drained(s);
            t.queue == [] && !t.inProgress && t.finished == s.finished + Outcomes(s.queue, true)
    decreases |s.queue|, s.timers
  {
    hide Step, Inv, Outcomes;
    var e := if s.writes == 1 then WriteFinished(Done) else TimerFired(true);
    StepKeepsInv(s, e);
    DrainStep(s);
    var t := Step(s, e);
    if s.writes == 1 {
      FirstOutcome(s.queue);
    }
    if t.writes + t.timers == 1 {
      BusyWriterDrains(t);
    }
  }

  // ------------------------------------------------------------ the writer

  lemma NoOutcome()
    ensures Outcomes([], false) == []
  {
  }

  lemma OneMoreOutcome(packets: seq<Packet>, p: Packet)
    ensures Outcomes(packets + [p], false) == Outcomes(packets, false) + [(p, false)]
  {
  }

  /** The writer object.  Fields declared `ghost` record what the system was asked to do. */
  class Writer {
    var running: bool
    var queue: seq<Packet>
    var inProgress: bool
    var burstBytes: nat
    ghost var writes: nat
    ghost var timers: nat
    ghost var accepted: seq<Packet>
    ghost var finished: seq<(Packet, bool)>
    ghost var closedBursts: seq<seq<Packet>>
    ghost var burst: seq<Packet>

    ghost function Abs(): State
      reads this
    {
      State(running, queue, inProgress, burstBytes, writes, timers, accepted, finished, closedBursts, burst)
    }

    constructor ()
      ensures Abs() == INITIAL
    {
      running, queue, inProgress, burstBytes := false, [], false, 0;
      writes, timers, accepted, finished, closedBursts, burst := 0, 0, [], [], [], [];
    }

    method StartPort()
      requires Inv(Abs())
      modifies this
      ensures Abs() == Step(old(Abs()), Start)
    {
      if running {
        return;
      }
      running := true;
    }

    method StopPort()
      requires Inv(Abs())
      modifies this
      ensures Abs() == Step(old(Abs()), Stop)
    {
      if !running {
        return;
      }
      running := false;
    }

    method SendPacket(packet: Packet)
      requires Inv(Abs())
      modifies this
      ensures Abs() == Step(old(Abs()), Send(packet))
    {
      if !running {
        return;
      }
      queue := queue + [packet];
      accepted := accepted + [packet];
      if !inProgress {
        inProgress := true;
        DoWrite();
      }
    }

    method ResetBurstBytes()
      modifies this
      ensures Abs() == ResetBurst(old(Abs()))
    {
      burstBytes := 0;
      closedBursts, burst := closedBursts + [burst], [];
    }

    method DoWrite()
      modifies this
      ensures Abs() == NextWrite(old(Abs()))
    {
      if queue == [] {
        inProgress := false;
        ResetBurstBytes();
        return;
      }
      if burstBytes > 0 && burstBytes + |queue[0]| > MAX_BURST_BYTES {
        timers := timers + 1;
      } else {
        DoWriteImpl();
      }
    }

    method DoWriteImpl()
      requires queue != []
      modifies this
      ensures Abs() == StartWrite(old(Abs()))
    {
      burstBytes := burstBytes + |queue[0]|;
      writes, burst := writes + 1, burst + [queue[0]];
    }

    /** The loop over the queue after an error. */
    method DropQueue()
      modifies this`queue, this`finished
      ensures queue == [] && finished == old(finished) + Outcomes(old(queue), false)
    {
      hide Outcomes;
      NoOutcome();
      ghost var done: seq<Packet> := [];
      while queue != []
        invariant old(queue) == done + queue && finished == old(finished) + Outcomes(done, false)
      {
        OneMoreOutcome(done, queue[0]);
        done := done + [queue[0]];
        finished := finished + [(queue[0], false)];
        queue := queue[1..];
      }
      assert done + [] == done;
    }

    method HandleWrite(result: WriteResult)
      requires Inv(Abs()) && Enabled(Abs(), WriteFinished(result))
      modifies this
      ensures Abs() == Step(old(Abs()), WriteFinished(result))
    {
      writes := writes - 1;
      if result == Done {
        finished := finished + [(queue[0], true)];
        queue := queue[1..];
        DoWrite();
      } else {
        if result != Aborted {
          DropQueue();
        }
        inProgress := false;
        ResetBurstBytes();
      }
    }

    method HandleThrottleTimer(ok: bool)
      requires Inv(Abs()) && Enabled(Abs(), TimerFired(ok))
      modifies this
      ensures Abs() == Step(old(Abs()), TimerFired(ok))
    {
      timers := timers - 1;
      if ok && running {
        ResetBurstBytes();
        DoWriteImpl();
      }
    }
  }
}
