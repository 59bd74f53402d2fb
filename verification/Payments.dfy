/** The order logic and the payment object together: what the terminal gets when the payment object handles the
  payments and confirmations that the order logic sent, in the order it sent them. */
module Payments {
  import opened Basics
  import P = PrimeModel
  import PrimeRuns
  import PrimeCauses
  import PrimeTheorems
  import PrimeWitnesses
  import A = ArkaimLogic

  datatype Message = Pay(order: string) | ConfirmPayment(order: string)

  /** The payment messages in a history of the order logic. */
  function Sent(trace: seq<P.Output>): seq<Message> {
    if trace == [] then []
    else
      Sent(trace[..|trace| - 1]) +
      match trace[|trace| - 1]
      case PayTransaction(order) => [Pay(order)]
      case PayConfirm(order, _, _) => [ConfirmPayment(order)]
      case _ => []
  }

  /** The payment messages among the events of the payment object. */
  function Received(events: seq<A.Event>): seq<Message> {
    if events == [] then []
    else
      Received(events[..|events| - 1]) +
      match events[|events| - 1]
      case PayTransaction(order, _, _, _) => [Pay(order)]
      case PayConfirm(order, _, _) => [ConfirmPayment(order)]
      case _ => []
  }

  /** The payment object got the messages the order logic sent, in order, up to some moment; its other events come
      from the terminal and the display at any time. */
  predicate Linked(orderEvents: seq<P.Event>, paymentEvents: seq<A.Event>) {
    Received(paymentEvents) <= Sent(P.After(orderEvents).trace)
  }

  lemma {:induction false} SentCounted(trace: seq<P.Output>, order: string)
    ensures multiset(Sent(trace))[Pay(order)] == PrimeRuns.Count(trace, PrimeRuns.PaymentOf(order))
    ensures multiset(Sent(trace))[ConfirmPayment(order)] == PrimeRuns.Count(trace, PrimeRuns.ConfirmationOf(order))
  {
    if trace != [] {
      SentCounted(trace[..|trace| - 1], order);
    }
  }

  lemma {:induction false} ConfirmsCounted(events: seq<A.Event>, order: string)
    ensures multiset(Received(events))[ConfirmPayment(order)] == A.ConfirmMessages(events, order)
  {
    if events != [] {
      ConfirmsCounted(events[..|events| - 1], order);
    }
  }

  lemma PrefixCounts(a: seq<Message>, b: seq<Message>, m: Message)
    requires a <= b
    ensures multiset(a)[m] <= multiset(b)[m]
  {
    assert b == a + b[|a|..];
  }

  /** Over every linked run the terminal gets at most one PAY_CONFIRM frame for an order per order created with its
      id: with fresh ids, at most one. */
  lemma ConfirmFramesPerCreation(devices: A.Devices, orderEvents: seq<P.Event>, paymentEvents: seq<A.Event>,
                                 order: string)
    requires order != "" && Linked(orderEvents, paymentEvents)
    ensures A.Confirms(A.After(devices, paymentEvents).trace, order) <=
            PrimeRuns.Count(P.After(orderEvents).trace, PrimeRuns.CreationOf(order))
  {
    var trace := P.After(orderEvents).trace;
    A.ConfirmsAreAskedFor(devices, paymentEvents, order);
    ConfirmsCounted(paymentEvents, order);
    PrefixCounts(Received(paymentEvents), Sent(trace), ConfirmPayment(order));
    SentCounted(trace, order);
    PrimeTheorems.ConfirmedAtMostOncePerCreation(orderEvents, order);
    hide P.After, Sent, PrimeRuns.Count, A.After, A.Confirms;
  }

  // ------------------------------------------------- one payment for an order

  predicate RequestsPayment(e: A.Event, order: string) {
    e.PayTransaction? && e.order == order
  }

  lemma {:induction false} CountsGrow(events: seq<A.Event>, k: nat, m: Message)
    requires k <= |events|
    ensures multiset(Received(events[..k]))[m] <= multiset(Received(events))[m]
    decreases |events| - k
  {
    if k == |events| {
      assert events[..k] == events;
    } else {
      CountsGrow(events, k + 1, m);
      assert events[..k + 1][..k] == events[..k];
    }
  }

  predicate Carries(e: A.Event, m: Message) {
    match m
    case Pay(order) => RequestsPayment(e, order)
    case ConfirmPayment(order) => e.PayConfirm? && e.order == order
  }

  lemma CountsStep(events: seq<A.Event>, k: nat, m: Message)
    requires k < |events| && Carries(events[k], m)
    ensures multiset(Received(events[..k + 1]))[m] == multiset(Received(events[..k]))[m] + 1
  {
    assert events[..k + 1][..k] == events[..k];
  }

  lemma ReceivedOnce(orderEvents: seq<P.Event>, events: seq<A.Event>, order: string)
    requires Linked(orderEvents, events)
    ensures multiset(Received(events))[Pay(order)] <= if order == "" then 0 else 1
  {
    var trace := P.After(orderEvents).trace;
    PrefixCounts(Received(events), Sent(trace), Pay(order));
    SentCounted(trace, order);
    PrimeTheorems.PaidAtMostOnce(orderEvents, order);
    hide P.After, Sent, PrimeRuns.Count;
  }

  lemma RequestsCounted(events: seq<A.Event>, j: nat, k: nat, order: string)
    requires j <= k < |events| && RequestsPayment(events[j], order) && RequestsPayment(events[k], order)
    ensures multiset(Received(events))[Pay(order)] >= if j < k then 2 else 1
  {
    hide Received;
    CountsStep(events, k, Pay(order));
    CountsGrow(events, k + 1, Pay(order));
    if j < k {
      CountsStep(events, j, Pay(order));
      CountsGrow(events[..k], j + 1, Pay(order));
      assert events[..k][..j + 1] == events[..j + 1];
    }
  }

  /** In a linked run an order's payment is requested by one event only. */
  lemma RequestedOnce(orderEvents: seq<P.Event>, events: seq<A.Event>, j: nat, k: nat, order: string)
    requires Linked(orderEvents, events) && j <= k < |events|
    requires RequestsPayment(events[j], order) && RequestsPayment(events[k], order)
    ensures j == k && order != ""
  {
    hide Linked, Received;
    RequestsCounted(events, j, k, order);
    ReceivedOnce(orderEvents, events, order);
  }

  lemma {:induction false} RequestedSomewhere(events: seq<A.Event>) returns (j: nat)
    requires A.LatestRequest(events).Some?
    ensures j < |events| && events[j].PayTransaction? && events[j].payload.Some?
    ensures A.LatestRequest(events).value == A.Request(events[j].order, events[j].payload.value, events[j].now)
  {
    var n := |events| - 1;
    if events[n].PayTransaction? && events[n].payload.Some? {
      j := n;
    } else {
      j := RequestedSomewhere(events[..n]);
    }
  }

  /** All PAY_TRANSACTION frames that the terminal ever gets for an order, after retries with other cards or PINs
      included, ask for the same amount and carry the same time; and none is for an empty order id. */
  lemma OneAmountPerOrder(devices: A.Devices, orderEvents: seq<P.Event>, events: seq<A.Event>, a: A.Output, b: A.Output)
    requires Linked(orderEvents, events)
    requires a in A.After(devices, events).trace && a.TransactionFrame?
    requires b in A.After(devices, events).trace && b.TransactionFrame?
    requires a.order == b.order
    ensures (a.payment, a.time) == (b.payment, b.time) && a.order != ""
  {
    hide A.After, Linked;
    var m := A.PaymentFramesAreRequested(devices, events, a);
    var n := A.PaymentFramesAreRequested(devices, events, b);
    var j := RequestedSomewhere(events[..m + 1]);
    var k := RequestedSomewhere(events[..n + 1]);
    if j <= k {
      RequestedOnce(orderEvents, events, j, k, a.order);
    } else {
      RequestedOnce(orderEvents, events, k, j, a.order);
    }
  }

  /** Every PAY_CONFIRM frame is for an order whose payment succeeded, carries the id of that success, and was asked
      for by the order logic. */
  lemma ConfirmFramesAreDue(devices: A.Devices, orderEvents: seq<P.Event>, events: seq<A.Event>, o: A.Output)
      returns (k: nat)
    requires Linked(orderEvents, events) && o in A.After(devices, events).trace && o.ConfirmFrame?
    ensures k < |events| && A.Unsettled(events[..k], o.order) == Some((o.transactionId, o.time))
    ensures PrimeRuns.Count(P.After(orderEvents).trace, PrimeRuns.ConfirmationOf(o.order)) > 0
  {
    hide A.After, A.Unsettled, P.After, Received, Sent, PrimeRuns.Count;
    k := A.SettlementFramesCarryTheStoredId(devices, events, o);
    var trace := P.After(orderEvents).trace;
    SentCounted(trace, o.order);
    PrefixCounts(Received(events), Sent(trace), ConfirmPayment(o.order));
    CountsGrow(events, k + 1, ConfirmPayment(o.order));
    CountsStep(events, k, ConfirmPayment(o.order));
  }

  // --------------------------------------------- which orders get confirmed

  lemma {:induction false} PassedOnIsAsked(events: seq<A.Event>, order: string)
    ensures A.PassedOnRequests(events, order) <= A.ConfirmMessages(events, order)
  {
    if events != [] {
      PassedOnIsAsked(events[..|events| - 1], order);
    }
  }

  predicate PassedOnAt(events: seq<A.Event>, k: nat, order: string)
    requires k < |events|
  {
    A.PassedOn(events[..k], events[k], order)
  }

  lemma {:induction false} PassedOnSomewhere(events: seq<A.Event>, order: string)
    ensures A.PassedOnRequests(events, order) > 0 <==> exists k :: 0 <= k < |events| && PassedOnAt(events, k, order)
  {
    if events != [] {
      var less := events[..|events| - 1];
      PassedOnSomewhere(less, order);
      forall k | 0 <= k < |less| ensures PassedOnAt(less, k, order) <==> PassedOnAt(events, k, order) {
        assert less[..k] == events[..k];
      }
      if A.PassedOnRequests(less, order) > 0 {
        var k :| 0 <= k < |less| && PassedOnAt(less, k, order);
        assert PassedOnAt(events, k, order);
      }
      assert PassedOnAt(events, |less|, order) <==> A.PassedOn(less, events[|less|], order);
    }
  }

  lemma ConfirmationsAsked(orderEvents: seq<P.Event>, events: seq<A.Event>, order: string)
    requires order != "" && Linked(orderEvents, events)
    ensures A.ConfirmMessages(events, order) <=
            PrimeRuns.Count(P.After(orderEvents).trace, PrimeRuns.CreationOf(order))
  {
    hide P.After, Sent, Received, PrimeRuns.Count;
    var trace := P.After(orderEvents).trace;
    ConfirmsCounted(events, order);
    PrefixCounts(Received(events), Sent(trace), ConfirmPayment(order));
    SentCounted(trace, order);
    PrimeTheorems.ConfirmedAtMostOncePerCreation(orderEvents, order);
  }

  /** When at most one order was created with the id, the terminal gets its PAY_CONFIRM frame, and only one, if and
      only if the confirmation request reached the terminal's node while the order's success was unsettled. */
  lemma ConfirmedIff(devices: A.Devices, orderEvents: seq<P.Event>, events: seq<A.Event>, order: string)
    requires order != "" && Linked(orderEvents, events)
    requires PrimeRuns.Count(P.After(orderEvents).trace, PrimeRuns.CreationOf(order)) <= 1
    ensures A.Confirms(A.After(devices, events).trace, order) ==
            if exists k :: 0 <= k < |events| && PassedOnAt(events, k, order) then 1 else 0
  {
    hide P.After, A.After, PrimeRuns.Count, Linked, PassedOnAt;
    A.ConfirmsArePassedOn(devices, events, order);
    PassedOnIsAsked(events, order);
    ConfirmationsAsked(orderEvents, events, order);
    PassedOnSomewhere(events, order);
  }

  /** The terminal answers only payments that were requested. */
  predicate AnswersRequests(events: seq<A.Event>) {
    forall k :: 0 <= k < |events| && events[k].TransactionAnswer? ==>
      Pay(events[k].order) in Received(events[..k])
  }

  lemma {:induction false} ReceivedPrefix(events: seq<A.Event>, k: nat)
    requires k <= |events|
    ensures Received(events[..k]) <= Received(events)
    decreases |events| - k
  {
    if k == |events| {
      assert events[..k] == events;
    } else {
      ReceivedPrefix(events, k + 1);
      assert events[..k + 1][..k] == events[..k];
    }
  }

  lemma {:induction false} UnsettledWasRequested(events: seq<A.Event>, order: string)
    requires A.Unsettled(events, order).Some? && AnswersRequests(events)
    ensures Pay(order) in Received(events)
  {
    var n := |events| - 1;
    var e := events[n];
    ReceivedPrefix(events, n);
    if !(e.TransactionAnswer? && e.order == order) {
      assert AnswersRequests(events[..n]) by {
        forall k | 0 <= k < n && events[..n][k].TransactionAnswer?
          ensures Pay(events[..n][k].order) in Received(events[..n][..k])
        {
          assert events[..n][..k] == events[..k];
        }
      }
      UnsettledWasRequested(events[..n], order);
    }
  }

  lemma AnswersPrefix(events: seq<A.Event>, k: nat)
    requires AnswersRequests(events) && k <= |events|
    ensures AnswersRequests(events[..k])
  {
    forall j | 0 <= j < k && events[..k][j].TransactionAnswer?
      ensures Pay(events[..k][j].order) in Received(events[..k][..j])
    {
      assert events[..k][..j] == events[..j];
    }
  }

  /** The order logic confirmed the order at `i` of its messages, and had not asked for its payment before. */
  predicate ConfirmedUnpaid(messages: seq<Message>, i: nat, order: string) {
    i < |messages| && messages[i] == ConfirmPayment(order) && Pay(order) !in messages[..i]
  }

  lemma TwiceCounted(messages: seq<Message>, i: nat, j: nat, m: Message)
    requires i < j < |messages| && messages[i] == m && messages[j] == m
    ensures multiset(messages)[m] >= 2
  {
    assert messages == messages[..j] + [messages[j]] + messages[j + 1..];
    assert messages[..j][i] == m;
  }

  /** A confirmation that the order logic sends before it asks for the payment comes to nothing: the payment may still
      succeed, but the terminal never gets a PAY_CONFIRM frame for it. */
  lemma ConfirmedUnpaidIsLost(devices: A.Devices, orderEvents: seq<P.Event>, events: seq<A.Event>, i: nat,
                              order: string)
    requires order != "" && Linked(orderEvents, events) && AnswersRequests(events)
    requires PrimeRuns.Count(P.After(orderEvents).trace, PrimeRuns.CreationOf(order)) <= 1
    requires ConfirmedUnpaid(Sent(P.After(orderEvents).trace), i, order)
    ensures A.Confirms(A.After(devices, events).trace, order) == 0
  {
    hide P.After, A.After, Sent, Received, PrimeRuns.Count, AnswersRequests, A.Unsettled;
    ConfirmedIff(devices, orderEvents, events, order);
    SentCounted(P.After(orderEvents).trace, order);
    PrimeTheorems.ConfirmedAtMostOncePerCreation(orderEvents, order);
    forall k | 0 <= k < |events| ensures !PassedOnAt(events, k, order) {
      if PassedOnAt(events, k, order) {
        AnswersPrefix(events, k);
        UnsettledWasRequested(events[..k], order);
        ReceivedNext(events, k, order);
        ReceivedPrefix(events, k + 1);
        NotPaidFirst(Sent(P.After(orderEvents).trace), Received(events[..k]), i, order);
        assert false;
      }
    }
  }

  lemma ReceivedNext(events: seq<A.Event>, k: nat, order: string)
    requires k < |events| && PassedOnAt(events, k, order)
    ensures Received(events[..k + 1]) == Received(events[..k]) + [ConfirmPayment(order)]
  {
    assert events[..k + 1][..k] == events[..k];
  }

  lemma NotPaidFirst(messages: seq<Message>, before: seq<Message>, i: nat, order: string)
    requires ConfirmedUnpaid(messages, i, order) && multiset(messages)[ConfirmPayment(order)] <= 1
    requires before + [ConfirmPayment(order)] <= messages
    ensures Pay(order) !in before
  {
    var j := |before|;
    assert messages[j] == ConfirmPayment(order) && messages[..j] == before;
    if i != j {
      TwiceCounted(messages, if i < j then i else j, if i < j then j else i, ConfirmPayment(order));
    }
  }

  // ------------------------------------- an order first seen when it has ended

  /** The poll shows, as delivered or interrupted, an order that is neither paid nor finalized. */
  predicate FirstSeenEnded(s: P.State, e: P.Event, order: string) {
    PrimeCauses.PaymentDue(s, e, order) && !P.OrderOf(s, e.dispenser).finalized &&
    (e.polled.value.status == P.Interrupted || e.polled.value.status == P.Delivered)
  }

  /** Such a poll confirms first and pays then. */
  lemma ConfirmsThenPays(s: P.State, e: P.Event, order: string) returns (w: seq<P.Output>, i: nat)
    requires FirstSeenEnded(s, e, order)
    ensures i < |w| && w[i].PayConfirm? && w[i].order == order
    ensures w + [P.PayTransaction(order)] <= P.Step(s, e).trace
  {
    hide P.Finalize, P.StorePoll, P.OpenSale, P.CreatePayment;
    var d, p := e.dispenser, e.polled.value;
    var t := P.StorePoll(s, d, e.status, e.nozzle);
    PrimeCauses.StoreFrame(s, d, e.status, e.nozzle);
    NamedOrderIsKnown(s, d, order);
    var u := P.SetOrder(P.NotePolled(t, d, p.id), d, t.orders[d].(status := p.status));
    PrimeCauses.FinalizeIssues(u, d);
    PrimeCauses.FinalizeFrame(u, d);
    var v := P.Finalize(u, d);
    PrimeCauses.OpenFrame(v, p.id);
    w := P.OpenSale(v, p.id).trace;
    i := FindConfirm(u, v, order, p.status == P.Interrupted, d);
    PaysAtOnce(P.OpenSale(v, p.id), order, e.paymentRefused);
  }

  lemma NamedOrderIsKnown(s: P.State, d: string, order: string)
    requires order != "" && P.OrderOf(s, d).id == order
    ensures d in s.orders
  {
  }

  lemma FindConfirm(u: P.State, v: P.State, order: string, notComplete: bool, d: string) returns (i: nat)
    requires PrimeCauses.Issued(u, v, P.PayConfirm(order, notComplete, d))
    ensures i < |v.trace| && v.trace[i] == P.PayConfirm(order, notComplete, d)
  {
    i :| |u.trace| <= i < |v.trace| && v.trace[i] == P.PayConfirm(order, notComplete, d);
  }

  lemma PaysAtOnce(s: P.State, order: string, refused: bool)
    requires order != "" && order !in s.paid
    ensures s.trace + [P.PayTransaction(order)] <= P.CreatePayment(s, order, refused).trace
  {
    PrimeCauses.FailureIssues(P.Emit(s, P.PayTransaction(order)), order);
    hide P.FailPayment;
  }

  lemma {:induction false} SentPrefix(a: seq<P.Output>, b: seq<P.Output>)
    requires a <= b
    ensures Sent(a) <= Sent(b)
    decreases |b|
  {
    if |a| == |b| {
      assert a == b;
    } else {
      SentPrefix(a, b[..|b| - 1]);
    }
  }

  lemma SentConfirm(a: seq<P.Output>, o: P.Output)
    requires o.PayConfirm?
    ensures Sent(a + [o]) == Sent(a) + [ConfirmPayment(o.order)]
  {
    assert (a + [o])[..|a|] == a;
  }

  lemma SentPay(a: seq<P.Output>, order: string)
    ensures Sent(a + [P.PayTransaction(order)]) == Sent(a) + [Pay(order)]
  {
    assert (a + [P.PayTransaction(order)])[..|a|] == a;
  }

  lemma ConfirmedFirst(trace: seq<P.Output>, w: seq<P.Output>, i: nat, order: string) returns (j: nat)
    requires i < |w| && w[i].PayConfirm? && w[i].order == order && w + [P.PayTransaction(order)] <= trace
    requires multiset(Sent(trace))[Pay(order)] <= 1
    ensures ConfirmedUnpaid(Sent(trace), j, order)
  {
    hide Sent;
    j := |Sent(w[..i])|;
    assert w[..i] + [w[i]] == w[..i + 1];
    SentConfirm(w[..i], w[i]);
    SentPrefix(w[..i], w);
    SentPrefix(w[..i + 1], trace);
    SentPay(w, order);
    SentPrefix(w + [P.PayTransaction(order)], trace);
    var n := |Sent(w)|;
    if k :| 0 <= k < j && Sent(trace)[k] == Pay(order) {
      TwiceCounted(Sent(trace), k, n, Pay(order));
      assert false;
    }
    assert Sent(trace)[j] == ConfirmPayment(order);
  }

  lemma PaidOnceAtMost(orderEvents: seq<P.Event>, order: string)
    ensures multiset(Sent(P.After(orderEvents).trace))[Pay(order)] <= 1
  {
    SentCounted(P.After(orderEvents).trace, order);
    PrimeTheorems.PaidAtMostOnce(orderEvents, order);
    hide P.After, Sent, PrimeRuns.Count;
  }

  lemma {:induction false} HistoryGrows(events: seq<P.Event>, n: nat)
    requires n <= |events|
    ensures P.After(events[..n]).trace <= P.After(events).trace
    decreases |events| - n
  {
    hide P.Step, PrimeCauses.Cause;
    if n == |events| {
      assert events[..n] == events;
    } else {
      HistoryGrows(events, n + 1);
      assert events[..n + 1][..n] == events[..n];
      PrimeCauses.EveryOutputIsCaused(P.After(events[..n]), events[n]);
    }
  }

  /** An order that was created once and that a poll first shows when it has ended is paid but never confirmed at the
      terminal, whatever happens before and after. */
  lemma FirstSeenEndedIsNeverConfirmed(devices: A.Devices, orderEvents: seq<P.Event>, n: nat, events: seq<A.Event>,
                                       order: string)
    requires n < |orderEvents| && FirstSeenEnded(P.After(orderEvents[..n]), orderEvents[n], order)
    requires PrimeRuns.Count(P.After(orderEvents).trace, PrimeRuns.CreationOf(order)) <= 1
    requires Linked(orderEvents, events) && AnswersRequests(events)
    ensures A.Confirms(A.After(devices, events).trace, order) == 0
  {
    hide P.After, P.Step, A.After, Sent, Received, PrimeRuns.Count, Linked, AnswersRequests;
    var w, i := ConfirmsThenPays(P.After(orderEvents[..n]), orderEvents[n], order);
    assert orderEvents[..n] + [orderEvents[n]] == orderEvents[..n + 1];
    P.AfterOneMore(orderEvents[..n], orderEvents[n]);
    HistoryGrows(orderEvents, n + 1);
    PaidOnceAtMost(orderEvents, order);
    var j := ConfirmedFirst(P.After(orderEvents).trace, w, i, order);
    NamedOrder(P.After(orderEvents[..n]), orderEvents[n], order);
    ConfirmedUnpaidIsLost(devices, orderEvents, events, j, order);
  }

  lemma NamedOrder(s: P.State, e: P.Event, order: string)
    requires FirstSeenEnded(s, e, order)
    ensures order != ""
  {
  }

  /** Polls do come that late: here the order is created, and its first poll shows it delivered. */
  function LatePolled(): seq<P.Event> {
    PrimeWitnesses.Loaded() + [P.ChooseDispenser("a", true)] + [PrimeWitnesses.Created("a", "A")]
  }

  lemma LatePollRun()
    ensures FirstSeenEnded(P.After(LatePolled()), PrimeWitnesses.Poll("a", "A", P.Complete, P.Delivered), "A")
  {
    hide P.After, P.Step, PrimeWitnesses.Loaded;
    PrimeWitnesses.LoadedState();
    var load := PrimeWitnesses.Loaded();
    P.AfterOneMore(load, P.ChooseDispenser("a", true));
    PrimeWitnesses.Chosen(P.After(load), "a");
    P.AfterOneMore(load + [P.ChooseDispenser("a", true)], PrimeWitnesses.Created("a", "A"));
    PrimeWitnesses.CreatedStep(P.After(load + [P.ChooseDispenser("a", true)]), "a", "A");
  }
}
