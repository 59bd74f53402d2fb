/** The core queue: every channel's parser feeds one FIFO, and the run loop takes messages from its front. */
module MessageLayer {
  import opened Basics
  import opened DwinParser

  const UART_LAYER := "UART"

  /** What can happen between two iterations of the run loop, and one iteration (`Take`). */
  datatype Event =
    | UartBytes(chunk: Chunk)
    | OtherChannel(messages: seq<Message>)
    | Take

  datatype Dispatch = Dispatch(message: Message, handled: bool)

  /** `buffer` is the UART parser's, `queue` the core's; `dispatched` is the log of `processMessage` calls. */
  datatype State = State(buffer: seq<Byte>, queue: seq<Message>, dispatched: seq<Dispatch>)

  predicate WellSourced(e: Event) {
    e.OtherChannel? ==> forall m | m in e.messages :: m.source != UART_LAYER
  }

  function Step(handlers: set<string>, s: State, e: Event): State {
    match e
    case UartBytes(c) =>
      var d := Decode(UART_LAYER, s.buffer + c.data, c.stray);
      s.(buffer := d.rest, queue := s.queue + d.messages)
    case OtherChannel(messages) => s.(queue := s.queue + messages)
    case Take =>
      if s.queue == [] then s
      else
        var m := s.queue[0];
        s.(queue := s.queue[1..], dispatched := s.dispatched + [Dispatch(m, m.source in handlers)])
  }

  function After(handlers: set<string>, events: seq<Event>): State {
    if events == [] then State([], [], [])
    else Step(handlers, After(handlers, events[..|events| - 1]), events[|events| - 1])
  }

  // ------------------------------------------------------------- the FIFO law

  function From(source: string, messages: seq<Message>): seq<Message> {
    if messages == [] then []
    else (if messages[0].source == source then [messages[0]] else []) + From(source, messages[1..])
  }

  function Taken(log: seq<Dispatch>): seq<Message> {
    seq(|log|, i requires 0 <= i < |log| => log[i].message)
  }

  function UartChunks(events: seq<Event>): seq<Chunk> {
    if events == [] then []
    else UartChunks(events[..|events| - 1]) +
         if events[|events| - 1].UartBytes? then [events[|events| - 1].chunk] else []
  }

  /** All messages a channel other than the UART produced, in order. */
  function Produced(source: string, events: seq<Event>): seq<Message> {
    if events == [] then []
    else Produced(source, events[..|events| - 1]) +
         if events[|events| - 1].OtherChannel? then From(source, events[|events| - 1].messages) else []
  }

  lemma {:induction false} FromConcat(source: string, a: seq<Message>, b: seq<Message>)
    ensures From(source, a + b) == From(source, a) + From(source, b)
  {
    if a == [] {
      assert a + b == b;
    } else {
      assert (a + b)[0] == a[0] && (a + b)[1..] == a[1..] + b;
      FromConcat(source, a[1..], b);
    }
  }

  lemma {:induction false} FromOthers(messages: seq<Message>)
    requires forall m | m in messages :: m.source != UART_LAYER
    ensures From(UART_LAYER, messages) == []
  {
    if messages != [] {
      assert messages[0] in messages;
      FromOthers(messages[1..]);
    }
  }

  /** The decoder stamps every message with its own channel. */
  lemma {:induction false} DecodedSource(source: string, wanted: string, buf: seq<Byte>, stray: Byte)
    ensures var m := Decode(source, buf, stray).messages;
            From(wanted, m) == if wanted == source then m else []
    decreases |buf|
  {
    if |buf| < 3 {
    } else if !HasHeader(buf) {
      DecodedSource(source, wanted, buf[1..], stray);
    } else if HasPacket(buf) {
      var size := PacketSize(buf);
      DecodedSource(source, wanted, buf[size..], stray);
      var m := Interpret(source, buf[..size], CommandByte(buf, stray));
      FromConcat(wanted, [m], Decode(source, buf[size..], stray).messages);
      assert [m][1..] == [];
    }
  }

  lemma {:induction false} OneMoreChunk(source: string, buffer: seq<Byte>, chunks: seq<Chunk>, c: Chunk)
    ensures var d := DecodeInChunks(source, buffer, chunks);
            DecodeInChunks(source, buffer, chunks + [c]) ==
            Prepend(d.messages, Decode(source, d.rest + c.data, c.stray))
    decreases |chunks|
  {
    var all := chunks + [c];
    if chunks == [] {
      assert all[1..] == [];
    } else {
      var d := Decode(source, buffer + chunks[0].data, chunks[0].stray);
      assert all[0] == chunks[0] && all[1..] == chunks[1..] + [c];
      OneMoreChunk(source, d.rest, chunks[1..], c);
      var e := DecodeInChunks(source, d.rest, chunks[1..]);
      PrependTwice(d.messages, e.messages, Decode(source, e.rest + c.data, c.stray));
    }
  }

  /** The messages of one channel that went through the queue or still wait in it. */
  function Passed(source: string, s: State): seq<Message> {
    From(source, Taken(s.dispatched)) + From(source, s.queue)
  }

  lemma TakeMovesOne(handlers: set<string>, s: State, source: string)
    ensures Passed(source, Step(handlers, s, Take)) == Passed(source, s)
  {
    if s.queue != [] {
      var m := s.queue[0];
      var t := Step(handlers, s, Take);
      assert Taken(t.dispatched) == Taken(s.dispatched) + [m];
      FromConcat(source, Taken(s.dispatched), [m]);
      assert [m] + s.queue[1..] == s.queue;
      FromConcat(source, [m], s.queue[1..]);
      assert From(source, Taken(s.dispatched)) + From(source, [m]) + From(source, s.queue[1..]) ==
             From(source, Taken(s.dispatched)) + (From(source, [m]) + From(source, s.queue[1..]));
    }
  }

  lemma ArrivalAppends(handlers: set<string>, s: State, e: Event, source: string)
    requires WellSourced(e) && !e.Take?
    ensures var arrived := if e.OtherChannel? then (if source == UART_LAYER then [] else From(source, e.messages))
                           else if source != UART_LAYER then []
                           else Decode(UART_LAYER, s.buffer + e.chunk.data, e.chunk.stray).messages;
            Passed(source, Step(handlers, s, e)) == Passed(source, s) + arrived
  {
    match e
    case UartBytes(c) =>
      var d := Decode(UART_LAYER, s.buffer + c.data, c.stray);
      FromConcat(source, s.queue, d.messages);
      DecodedSource(UART_LAYER, source, s.buffer + c.data, c.stray);
    case OtherChannel(messages) =>
      FromConcat(source, s.queue, messages);
      if source == UART_LAYER {
        FromOthers(messages);
      }
  }

  /** Nothing is lost, duplicated or reordered on the way: for every interleaving, the messages of a channel
      that were dispatched, followed by those still queued, are what its parser produced. */
  lemma {:induction false} FifoPerChannel(handlers: set<string>, events: seq<Event>, source: string)
    requires forall e | e in events :: WellSourced(e)
    ensures var s := After(handlers, events);
            var uart := DecodeInChunks(UART_LAYER, [], UartChunks(events));
            && s.buffer == uart.rest
            && Passed(source, s) == if source == UART_LAYER then uart.messages else Produced(source, events)
  {
    if events != [] {
      var n := |events| - 1;
      var s, e := After(handlers, events[..n]), events[n];
      assert e in events;
      FifoPerChannel(handlers, events[..n], source);
      if e.Take? {
        TakeMovesOne(handlers, s, source);
      } else {
        ArrivalAppends(handlers, s, e, source);
      }
      if e.UartBytes? {
        OneMoreChunk(UART_LAYER, [], UartChunks(events[..n]), e.chunk);
      } else {
        assert UartChunks(events) == UartChunks(events[..n]);
      }
    }
  }

  function ChunkBytes(events: seq<Event>): seq<Byte> {
    Flatten(UartChunks(events))
  }

  /** The UART messages dispatched so far are a prefix of one decode of all the UART bytes received,
      whatever their chunks and whatever the other channels did in between. */
  lemma DispatchedUartIsPrefix(handlers: set<string>, events: seq<Event>, stray: Byte)
    requires forall e | e in events :: WellSourced(e)
    requires NoBarePacket(ChunkBytes(events))
    ensures From(UART_LAYER, Taken(After(handlers, events).dispatched)) <=
            Decode(UART_LAYER, ChunkBytes(events), stray).messages
  {
    FifoPerChannel(handlers, events, UART_LAYER);
    assert [] + ChunkBytes(events) == ChunkBytes(events);
    ChunkInvariance(UART_LAYER, [], UartChunks(events), stray);
  }

  lemma {:induction false} HandledIff(handlers: set<string>, events: seq<Event>)
    ensures forall i :: 0 <= i < |After(handlers, events).dispatched| ==>
              var d := After(handlers, events).dispatched[i];
              d.handled <==> d.message.source in handlers
  {
    if events != [] {
      HandledIff(handlers, events[..|events| - 1]);
    }
  }

  /** The messages given to a handler. */
  function Given(log: seq<Dispatch>): seq<Message> {
    if log == [] then []
    else Given(log[..|log| - 1]) + if log[|log| - 1].handled then [log[|log| - 1].message] else []
  }

  lemma {:induction false} GivenFrom(handlers: set<string>, log: seq<Dispatch>, source: string)
    requires forall i :: 0 <= i < |log| ==> (log[i].handled <==> log[i].message.source in handlers)
    ensures From(source, Given(log)) == if source in handlers then From(source, Taken(log)) else []
  {
    if log != [] {
      var less, last := log[..|log| - 1], log[|log| - 1];
      GivenFrom(handlers, less, source);
      FromConcat(source, Given(less), if last.handled then [last.message] else []);
      assert Taken(log) == Taken(less) + [last.message];
      FromConcat(source, Taken(less), [last.message]);
      assert [last.message][1..] == [];
    }
  }

  /** Every interleaving gives the handler of a registered channel all that its parser produced, in order, but for what
      is still queued; and messages of a channel without a handler reach none. */
  lemma HandlersGetTheirChannel(handlers: set<string>, events: seq<Event>, source: string)
    requires forall e | e in events :: WellSourced(e)
    ensures var s := After(handlers, events);
            var uart := DecodeInChunks(UART_LAYER, [], UartChunks(events));
            if source in handlers then
              From(source, Given(s.dispatched)) + From(source, s.queue) ==
              if source == UART_LAYER then uart.messages else Produced(source, events)
            else From(source, Given(s.dispatched)) == []
  {
    FifoPerChannel(handlers, events, source);
    HandledIff(handlers, events);
    GivenFrom(handlers, After(handlers, events).dispatched, source);
    hide After, From;
  }

  // ---------------------------------------------------------------- the core

  class Core {
    var queue: seq<Message>
    const handlers: set<string>
    const uart: Parser
    ghost var dispatched: seq<Dispatch>

    constructor (handlers: set<string>)
      ensures this.handlers == handlers && fresh(uart) && Abs() == State([], [], [])
    {
      this.handlers := handlers;
      uart := new Parser();
      queue := [];
      dispatched := [];
    }

    ghost function Abs(): State
      reads this, uart
    {
      State(uart.buffer, queue, dispatched)
    }

    /** The receive handler registered for the UART channel. */
    method ReceiveUart(c: Chunk)
      modifies this, uart
      ensures Abs() == Step(handlers, old(Abs()), UartBytes(c))
    {
      var messages := uart.Parse(c.data, UART_LAYER, c.stray);
      Enqueue(messages);
    }

    method Enqueue(messages: seq<Message>)
      modifies this
      ensures queue == old(queue) + messages && dispatched == old(dispatched)
    {
      if messages != [] {
        for i := 0 to |messages|
          invariant queue == old(queue) + messages[..i] && dispatched == old(dispatched)
        {
          queue := queue + [messages[i]];
        }
      }
    }

    /** One iteration of the run loop; an empty queue makes it wait. */
    method TakeOne()
      modifies this
      ensures Abs() == Step(handlers, old(Abs()), Take)
    {
      if queue == [] {
        return;
      }
      var message := queue[0];
      queue := queue[1..];
      var handled := message.source in handlers;
      dispatched := dispatched + [Dispatch(message, handled)];
    }
  }
}
