/** The card payment side: the pending payment, the card and PIN state, and the transactions of paid orders.

  Requests to the terminal are frames; their answers arrive later as events, in any order and number.
  Messages to the order logic are synchronous calls: the order logic may call back at once with a request to
  clear the card (`ReactsWithClear`) or, after a card was resolved, with a balance request. */
module ArkaimLogic {
  import opened Basics

  type OrderId = string
  type Bytes = seq<Byte>

  datatype Scaled = Scaled(value: nat, exponent: nat)

  datatype Payment = Payment(
    productId: string, price: Scaled, volume: Scaled, amount: Scaled,
    notComplete: nat, factVolume: Scaled, factAmount: Scaled)

  const NO_PAYMENT := Payment("", Scaled(0, 0), Scaled(0, 0), Scaled(0, 0), 0, Scaled(0, 0), Scaled(0, 0))

  /** The texts of a payment result that the order logic tells apart; the rest are free texts. */
  datatype Reason =
    | NoPinpad | IncorrectPin | NotEnoughMoney
    | SendError | ParseError | DeserializeError | PinTypeError | PinRequestError | PinReadError
    | TransactionError(code: nat)
    | OtherReason(text: string)

  datatype Card = Card(reader: nat, api: nat, number: string, data: Bytes)

  datatype Pending = Pending(active: bool, order: OrderId, payment: Payment, time: nat)

  datatype ActiveOrder = ActiveOrder(transactionId: nat, number: string, data: Bytes, pin: Bytes, time: nat)

  /** Frames to the terminal and messages to the order logic, in the order they are issued. */
  datatype Output =
    | ResolveFrame
    | TransactionFrame(order: OrderId, card: Card, pin: Bytes, time: nat, payment: Payment)
    | ConfirmFrame(order: OrderId, card: Card, transactionId: nat, time: nat, payment: Payment)
    | CancelFrame(order: OrderId, card: Card, transactionId: nat, time: nat, payment: Payment)
    | BalanceFrame(card: Card, pin: Bytes)
    | PinFrame(pinType: nat)
    | CardDetectedNote
    | CardResolvedNote
    | CardErrorNote
    | PaymentResult(order: OrderId, success: bool, transactionId: nat, reason: Reason)
    | ConfirmDone(order: OrderId)
    | CancelDone(order: OrderId)
    | BalanceResult(success: bool, reason: Reason)
    | DebitReceipt(order: OrderId, number: string, transactionId: nat)

  datatype State = State(
    cardResolved: bool,
    resolving: bool,
    card: Card,
    pin: Bytes,
    pinType: nat,
    waitingPin: bool,
    waitingPinForBalance: bool,
    pending: Pending,
    transactions: map<OrderId, ActiveOrder>,
    resolves: nat,
    trace: seq<Output>)

  const INITIAL := State(false, false, Card(0, 0, "", []), [], 0, false, false,
                         Pending(false, "", NO_PAYMENT, 0), map[], 0, [])

  /** The devices found when the connection was set up. */
  datatype Devices = Devices(controller: bool, pinpad: bool, printer: bool)

  datatype ResolveReply = ResolveError | ResolveUnreadable(partial: Card) | Resolved(card: Card)

  datatype TransactionReply =
    | PinRequired(pinType: Option<nat>)
    | Error(code: nat)
    | Unreadable
    | Success(transactionId: nat, reason: Reason)
    | InvalidPin(reason: Reason)
    | GenericError(reason: Reason)
    | Refused(reason: Reason)

  datatype BalanceReply =
    | BalancePinRequired(pinType: Option<nat>)
    | BalanceError
    | BalanceUnreadable
    | BalanceOk(receipt: Reason)
    | BalanceInvalidPin
    | BalanceRefused

  /** `sent` says whether the terminal's node accepts a frame that the step wants to push; a payload is
      `None` when it cannot be decoded. */
  datatype Event =
    | ClearCardData
    | PayTransaction(order: OrderId, payload: Option<Payment>, now: nat, sent: bool)
    | PayConfirm(order: OrderId, payload: Option<Payment>, sent: bool)
    | CancelTouch(order: OrderId, payload: Option<Payment>, sent: bool)
    | PinEntered(pin: Bytes, sent: bool)
    | GetBalance(sent: bool)
    | PrintDebit(order: OrderId)
    | OtherMessage
    | CardDetected(readable: bool, dispenserChosen: bool, sent: bool)
    | CardAnswer(reply: ResolveReply, balanceSent: bool, sent: bool)
    | TransactionAnswer(order: OrderId, transactionReply: TransactionReply, sent: bool)
    | ConfirmAnswer(order: OrderId, error: bool)
    | CancelAnswer(order: OrderId, error: bool)
    | BalanceAnswer(balanceReply: BalanceReply)
    | PinReady(read: Bytes, complete: bool, sent: bool)

  // --------------------------------------------------------- small steps

  function Emit(s: State, o: Output): State {
    s.(trace := s.trace + [o])
  }

  function ResetCard(s: State): State {
    s.(cardResolved := false, card := s.card.(number := "", data := []), pin := [],
       pending := s.pending.(active := false))
  }

  function Inactive(s: State): State {
    s.(pending := s.pending.(active := false))
  }

  /** The order logic answers a failed payment by clearing the card, except when the PIN can be typed again. */
  predicate ReactsWithClear(r: Reason) {
    r != NoPinpad && r != IncorrectPin
  }

  function ReportFailure(s: State, order: OrderId, r: Reason): State {
    var t := Emit(s, PaymentResult(order, false, 0, r));
    if ReactsWithClear(r) then ResetCard(t) else t
  }

  function SendTransaction(s: State, order: OrderId, payment: Payment, sent: bool): State {
    if sent then Emit(s, TransactionFrame(order, s.card, s.pin, s.pending.time, payment))
    else Inactive(ReportFailure(s, order, SendError))
  }

  function TryPending(s: State, sent: bool): State {
    if !s.pending.active || !s.cardResolved then s
    else SendTransaction(s, s.pending.order, s.pending.payment, sent)
  }

  function SendBalance(s: State, sent: bool): State {
    if sent then Emit(s, BalanceFrame(s.card, s.pin)) else s
  }

  function AskForBalance(s: State, sent: bool): State {
    if s.cardResolved then SendBalance(s, sent) else s
  }

  function StoredCard(s: State, a: ActiveOrder): Card {
    s.card.(number := a.number, data := a.data)
  }

  function Confirm(s: State, order: OrderId, payload: Option<Payment>, sent: bool): State {
    if order !in s.transactions || !sent then s
    else
      var a := s.transactions[order];
      var payment := if payload.Some? then payload.value else NO_PAYMENT;
      Emit(s, ConfirmFrame(order, StoredCard(s, a), a.transactionId, a.time, payment))
  }

  function Cancel(s: State, order: OrderId, payload: Option<Payment>, sent: bool): State {
    if payload.None? && !s.pending.active then s
    else
      var id := if payload.Some? then order else s.pending.order;
      var payment := if payload.Some? then payload.value else s.pending.payment;
      if id !in s.transactions || !sent then s
      else
        var a := s.transactions[id];
        Emit(s, CancelFrame(id, StoredCard(s, a), a.transactionId, a.time, payment))
  }

  function AcceptPin(s: State, pin: Bytes, sent: bool): State {
    var t := s.(pin := pin);
    if t.waitingPinForBalance then SendBalance(t.(waitingPinForBalance := false), sent)
    else TryPending(t.(waitingPin := false), sent)
  }

  function DetectCard(d: Devices, s: State, readable: bool, dispenserChosen: bool, sent: bool): State {
    if s.cardResolved || s.resolving || s.pending.active then s
    else
      var t := s.(resolving := true);
      if !readable || !d.controller then t
      else
        var u := if t.card.number != "" then t
                 else if dispenserChosen then Emit(t, CardDetectedNote)
                 else ResetCard(Emit(t, CardDetectedNote));
        if sent then Emit(u, ResolveFrame).(resolves := u.resolves + 1) else u
  }

  function ResolveCard(s: State, reply: ResolveReply, balanceSent: bool, sent: bool): State {
    var t := s.(resolving := false, resolves := if s.resolves > 0 then s.resolves - 1 else 0);
    match reply
    case ResolveError => Emit(ResetCard(t), CardErrorNote)
    case ResolveUnreadable(partial) => t.(card := partial)
    case Resolved(card) =>
      var u := t.(card := card, cardResolved := true, pin := []);
      TryPending(AskForBalance(Emit(u, CardResolvedNote), balanceSent), sent)
  }

  function RequirePaymentPin(d: Devices, s: State, order: OrderId, pinType: Option<nat>, sent: bool): State {
    if pinType.None? then Inactive(ReportFailure(s, order, PinTypeError))
    else
      var t := s.(pinType := pinType.value);
      if !d.pinpad then ReportFailure(t.(waitingPin := true), order, NoPinpad)
      else if sent then Emit(t, PinFrame(pinType.value))
      else Inactive(ReportFailure(t, order, PinRequestError)).(waitingPin := false, waitingPinForBalance := false)
  }

  function Settle(s: State, order: OrderId, transactionId: nat, r: Reason): State {
    var a := ActiveOrder(transactionId, s.card.number, s.card.data, s.pin, s.pending.time);
    Emit(s.(transactions := s.transactions[order := a]), PaymentResult(order, true, transactionId, r))
  }

  function AnswerTransaction(d: Devices, s: State, order: OrderId, r: TransactionReply, sent: bool): State {
    match r
    case PinRequired(pinType) => RequirePaymentPin(d, s, order, pinType, sent)
    case Error(code) => Inactive(ReportFailure(s, order, TransactionError(code)))
    case Unreadable => Inactive(ReportFailure(s, order, ParseError))
    case Success(id, reason) => Settle(s, order, id, reason)
    case InvalidPin(reason) => ReportFailure(s, order, reason)
    case GenericError(reason) => ReportFailure(s, order, reason)
    case Refused(reason) => Inactive(ReportFailure(s, order, reason))
  }

  function Forget(s: State, order: OrderId): State {
    Inactive(s.(transactions := s.transactions - {order}))
  }

  function AnswerBalance(d: Devices, s: State, r: BalanceReply): State {
    match r
    case BalancePinRequired(pinType) =>
      if pinType.None? then Emit(s, BalanceResult(false, PinTypeError))
      else
        var t := s.(pinType := pinType.value);
        if !d.pinpad then Emit(t.(waitingPinForBalance := true), BalanceResult(false, NoPinpad))
        else Emit(t, PinFrame(pinType.value))
    case BalanceError => Emit(ResetCard(s), BalanceResult(false, OtherReason("NON_RECOGNIZED_ERROR")))
    case BalanceUnreadable => s
    case BalanceOk(receipt) => Emit(s, BalanceResult(true, receipt))
    case BalanceInvalidPin => Emit(s.(waitingPinForBalance := true), BalanceResult(false, IncorrectPin))
    case BalanceRefused => s
  }

  /** A PIN from the pin pad; `read` is what the read left behind, also when it was not complete. */
  function ReadPin(s: State, read: Bytes, complete: bool, sent: bool): State {
    var t := s.(pin := read);
    if complete then
      var u := t.(waitingPin := false);
      if u.pending.active then SendTransaction(u, u.pending.order, u.pending.payment, sent) else u
    else
      (if t.pending.active then Inactive(ReportFailure(t, t.pending.order, PinReadError)) else t).(waitingPin := false)
  }

  function PrintReceipt(d: Devices, s: State, order: OrderId): State {
    if !d.printer then s
    else
      var id := if order in s.transactions then s.transactions[order].transactionId else 0;
      Emit(s, DebitReceipt(order, s.card.number, id))
  }

  function Step(d: Devices, s: State, e: Event): State {
    match e
    case ClearCardData => ResetCard(s)
    case PayTransaction(order, payload, now, sent) =>
      if payload.None? then ReportFailure(s, order, DeserializeError)
      else TryPending(s.(pending := Pending(true, order, payload.value, now)), sent)
    case PayConfirm(order, payload, sent) => Confirm(s, order, payload, sent)
    case CancelTouch(order, payload, sent) => Cancel(s, order, payload, sent)
    case PinEntered(pin, sent) => AcceptPin(s, pin, sent)
    case GetBalance(sent) => AskForBalance(s, sent)
    case PrintDebit(order) => PrintReceipt(d, s, order)
    case OtherMessage => s
    case CardDetected(readable, chosen, sent) => DetectCard(d, s, readable, chosen, sent)
    case CardAnswer(reply, balanceSent, sent) => ResolveCard(s, reply, balanceSent, sent)
    case TransactionAnswer(order, reply, sent) => AnswerTransaction(d, s, order, reply, sent)
    case ConfirmAnswer(order, error) => Forget(if error then s else Emit(s, ConfirmDone(order)), order)
    case CancelAnswer(order, error) => if error then s else Forget(Emit(s, CancelDone(order)), order)
    case BalanceAnswer(reply) => AnswerBalance(d, s, reply)
    case PinReady(read, complete, sent) => ReadPin(s, read, complete, sent)
  }

  function After(d: Devices, events: seq<Event>): State {
    if events == [] then INITIAL else Step(d, After(d, events[..|events| - 1]), events[|events| - 1])
  }

  // ------------------------------------------- what the events alone determine

  datatype Request = Request(order: OrderId, payment: Payment, time: nat)

  /** The latest payment the order logic asked for. */
  function LatestRequest(events: seq<Event>): Option<Request> {
    if events == [] then None
    else
      match events[|events| - 1]
      case PayTransaction(order, Some(payment), now, _) => Some(Request(order, payment, now))
      case _ => LatestRequest(events[..|events| - 1])
  }

  function LatestTime(events: seq<Event>): nat {
    var r := LatestRequest(events);
    if r.Some? then r.value.time else 0
  }

  /** A success of the order that no confirmation answer and no error-free cancellation answer followed:
      its transaction id, and the time of the latest payment request when it arrived. */
  function Unsettled(events: seq<Event>, order: OrderId): Option<(nat, nat)> {
    if events == [] then None
    else
      var before := events[..|events| - 1];
      match events[|events| - 1]
      case TransactionAnswer(o, Success(id, _), _) =>
        if o == order then Some((id, LatestTime(before))) else Unsettled(before, order)
      case ConfirmAnswer(o, _) => if o == order then None else Unsettled(before, order)
      case CancelAnswer(o, error) => if o == order && !error then None else Unsettled(before, order)
      case _ => Unsettled(before, order)
  }

  // ------------------------------------------------------------- one step

  predicate IsFrame(o: Output) {
    o.TransactionFrame? || o.ConfirmFrame? || o.CancelFrame?
  }

  /** From `s` to `t` only card, PIN, flags and notes changed: no payment frame, no stored transaction, no other
      pending payment, no resolve request. */
  predicate Quiet(s: State, t: State) {
    && t.transactions == s.transactions && t.resolving == s.resolving && t.resolves == s.resolves
    && (t.pending.order, t.pending.payment, t.pending.time) == (s.pending.order, s.pending.payment, s.pending.time)
    && (t.pending.active ==> s.pending.active)
    && s.trace <= t.trace
    && forall i | |s.trace| <= i < |t.trace| :: !IsFrame(t.trace[i])
  }

  /** `t` is `s` after sending the pending payment. */
  predicate Pays(s: State, t: State, byPinPad: bool) {
    s.pending.active && (s.cardResolved || byPinPad) &&
    t == Emit(s, TransactionFrame(s.pending.order, s.card, s.pin, s.pending.time, s.pending.payment))
  }

  ghost predicate QuietlyPays(s: State, t: State, byPinPad: bool) {
    Quiet(s, t) || exists u :: Quiet(s, u) && Pays(u, t, byPinPad)
  }

  lemma QuietFailure(s: State, order: OrderId, r: Reason)
    ensures Quiet(s, ReportFailure(s, order, r))
    ensures Quiet(s, Inactive(ReportFailure(s, order, r)))
  {
  }

  lemma SendPays(s: State, sent: bool, byPinPad: bool)
    requires s.pending.active && (s.cardResolved || byPinPad)
    ensures var t := SendTransaction(s, s.pending.order, s.pending.payment, sent);
            Quiet(s, t) || Pays(s, t, byPinPad)
  {
    QuietFailure(s, s.pending.order, SendError);
    hide ReportFailure;
  }

  lemma TryPays(s: State, sent: bool)
    ensures var t := TryPending(s, sent);
            Quiet(s, t) || Pays(s, t, false)
  {
    if s.pending.active && s.cardResolved {
      SendPays(s, sent, false);
      hide SendTransaction;
    }
  }

  lemma PinPays(s: State, pin: Bytes, sent: bool)
    ensures QuietlyPays(s, AcceptPin(s, pin, sent), false)
  {
    var t := s.(pin := pin);
    if !t.waitingPinForBalance {
      var u := t.(waitingPin := false);
      TryPays(u, sent);
      hide TryPending;
      assert Quiet(s, u);
    }
  }

  lemma ReadPinPays(s: State, read: Bytes, complete: bool, sent: bool)
    ensures QuietlyPays(s, ReadPin(s, read, complete, sent), true)
  {
    var t := s.(pin := read);
    if complete {
      var u := t.(waitingPin := false);
      if u.pending.active {
        SendPays(u, sent, true);
        hide SendTransaction;
        assert Quiet(s, u);
      }
    } else {
      QuietFailure(t, t.pending.order, PinReadError);
      hide ReportFailure, Inactive;
    }
  }

  lemma QuietPinRequest(d: Devices, s: State, order: OrderId, pinType: Option<nat>, sent: bool)
    ensures Quiet(s, RequirePaymentPin(d, s, order, pinType, sent))
  {
    if pinType.None? {
      QuietFailure(s, order, PinTypeError);
      hide ReportFailure, Inactive;
    } else {
      var t := s.(pinType := pinType.value);
      QuietFailure(t.(waitingPin := true), order, NoPinpad);
      QuietFailure(t, order, PinRequestError);
      hide ReportFailure, Inactive;
    }
  }

  lemma QuietAnswer(d: Devices, s: State, order: OrderId, r: TransactionReply, sent: bool)
    requires !r.Success?
    ensures Quiet(s, AnswerTransaction(d, s, order, r, sent))
  {
    match r
    case PinRequired(pinType) =>
      QuietPinRequest(d, s, order, pinType, sent);
      hide RequirePaymentPin;
    case Error(code) => QuietFailure(s, order, TransactionError(code)); hide ReportFailure, Inactive;
    case Unreadable => QuietFailure(s, order, ParseError); hide ReportFailure, Inactive;
    case InvalidPin(reason) => QuietFailure(s, order, reason); hide ReportFailure;
    case GenericError(reason) => QuietFailure(s, order, reason); hide ReportFailure;
    case Refused(reason) => QuietFailure(s, order, reason); hide ReportFailure, Inactive;
  }

  lemma QuietBalance(d: Devices, s: State, r: BalanceReply)
    ensures Quiet(s, AnswerBalance(d, s, r))
  {
    match r
    case BalancePinRequired(pinType) =>
      if pinType.None? {
        QuietNote(s, s, BalanceResult(false, PinTypeError));
      } else {
        var t := s.(pinType := pinType.value);
        QuietNote(s, t.(waitingPinForBalance := true), BalanceResult(false, NoPinpad));
        QuietNote(s, t, PinFrame(pinType.value));
        hide Emit;
      }
    case BalanceError =>
      QuietNote(s, ResetCard(s), BalanceResult(false, OtherReason("NON_RECOGNIZED_ERROR")));
      hide Emit;
    case BalanceOk(receipt) => QuietNote(s, s, BalanceResult(true, receipt)); hide Emit;
    case BalanceInvalidPin =>
      QuietNote(s, s.(waitingPinForBalance := true), BalanceResult(false, IncorrectPin));
      hide Emit;
    case _ =>
  }

  lemma QuietNote(s: State, t: State, o: Output)
    requires Quiet(s, t) && !IsFrame(o)
    ensures Quiet(s, Emit(t, o))
  {
  }

  /** The state the card's answer is processed in. */
  function Unbusy(s: State): State {
    s.(resolving := false, resolves := if s.resolves > 0 then s.resolves - 1 else 0)
  }

  lemma ResolvePays(s: State, reply: ResolveReply, balanceSent: bool, sent: bool)
    ensures QuietlyPays(Unbusy(s), ResolveCard(s, reply, balanceSent, sent), false)
  {
    var t := Unbusy(s);
    if reply.Resolved? {
      var u := t.(card := reply.card, cardResolved := true, pin := []);
      var v := AskForBalance(Emit(u, CardResolvedNote), balanceSent);
      assert Quiet(t, v);
      TryPays(v, sent);
      hide TryPending;
      QuietIsTransitive(t, v, ResolveCard(s, reply, balanceSent, sent));
    }
  }

  lemma QuietIsTransitive(s: State, t: State, u: State)
    ensures Quiet(s, t) && Quiet(t, u) ==> Quiet(s, u)
  {
  }

  /** The state from which a step's payment, if any, is sent. */
  function Base(s: State, e: Event): State {
    if e.PayTransaction? && e.payload.Some? then s.(pending := Pending(true, e.order, e.payload.value, e.now))
    else if e.CardAnswer? then Unbusy(s)
    else s
  }

  predicate Settles(e: Event) {
    e.PayConfirm? || e.CancelTouch? || e.ConfirmAnswer? || e.CancelAnswer? || e.CardDetected? ||
    (e.TransactionAnswer? && e.transactionReply.Success?)
  }

  lemma OtherStepsPay(d: Devices, s: State, e: Event)
    requires !Settles(e)
    ensures QuietlyPays(Base(s, e), Step(d, s, e), e.PinReady?)
  {
    match e
    case PayTransaction(order, payload, now, sent) =>
      if payload.None? {
        QuietFailure(s, order, DeserializeError);
        hide ReportFailure;
      } else {
        TryPays(Base(s, e), sent);
        hide TryPending;
        assert Quiet(Base(s, e), Base(s, e));
      }
    case PinEntered(pin, sent) => PinPays(s, pin, sent); hide AcceptPin;
    case CardAnswer(reply, balanceSent, sent) => ResolvePays(s, reply, balanceSent, sent); hide ResolveCard;
    case TransactionAnswer(order, reply, sent) =>
      QuietAnswer(d, s, order, reply, sent);
      hide AnswerTransaction;
    case BalanceAnswer(reply) => QuietBalance(d, s, reply); hide AnswerBalance;
    case PinReady(read, complete, sent) => ReadPinPays(s, read, complete, sent); hide ReadPin;
    case _ =>
  }

  // ---------------------------------------------------------------- theorems

  lemma StepPending(d: Devices, s: State, e: Event)
    ensures var p := Step(d, s, e).pending;
            if e.PayTransaction? && e.payload.Some?
            then (p.order, p.payment, p.time) == (e.order, e.payload.value, e.now)
            else (p.order, p.payment, p.time) == (s.pending.order, s.pending.payment, s.pending.time) &&
                 (p.active ==> s.pending.active)
  {
    hide AnswerBalance, ReadPin, ResolveCard, AcceptPin, AskForBalance, PrintReceipt, RequirePaymentPin;
    if !Settles(e) {
      OtherStepsPay(d, s, e);
      hide Step;
    }
  }

  /** In every run the pending payment is the latest one requested. */
  lemma {:induction false} PendingIsLatest(d: Devices, events: seq<Event>)
    ensures var p := After(d, events).pending;
            match LatestRequest(events)
            case None => !p.active && (p.order, p.payment, p.time) == ("", NO_PAYMENT, 0)
            case Some(r) => (p.order, p.payment, p.time) == (r.order, r.payment, r.time)
  {
    if events != [] {
      PendingIsLatest(d, events[..|events| - 1]);
      StepPending(d, After(d, events[..|events| - 1]), events[|events| - 1]);
      hide Step;
    }
  }

  lemma StepTransactions(d: Devices, s: State, e: Event)
    ensures var m := Step(d, s, e).transactions;
            match e
            case TransactionAnswer(o, Success(id, _), _) =>
              m == s.transactions[o := ActiveOrder(id, s.card.number, s.card.data, s.pin, s.pending.time)]
            case ConfirmAnswer(o, _) => m == s.transactions - {o}
            case CancelAnswer(o, error) => m == if error then s.transactions else s.transactions - {o}
            case _ => m == s.transactions
  {
    hide AnswerBalance, ReadPin, ResolveCard, AcceptPin, AskForBalance, PrintReceipt, RequirePaymentPin;
    if !Settles(e) {
      OtherStepsPay(d, s, e);
      hide Step;
    }
  }

  /** In every run an order has a stored transaction exactly when the latest of its success, confirmation
      answer and error-free cancellation answer is a success, and what is stored is that success's id. */
  lemma {:induction false} TransactionsAreUnsettled(d: Devices, events: seq<Event>, order: OrderId)
    ensures var m := After(d, events).transactions;
            && (order in m <==> Unsettled(events, order).Some?)
            && (order in m ==> (m[order].transactionId, m[order].time) == Unsettled(events, order).value)
  {
    if events != [] {
      var before := events[..|events| - 1];
      TransactionsAreUnsettled(d, before, order);
      PendingIsLatest(d, before);
      StepTransactions(d, After(d, before), events[|events| - 1]);
      hide Step;
    }
  }

  /** What one step adds to the trace. */
  function Added(d: Devices, s: State, e: Event): seq<Output>
  {
    var t := Step(d, s, e);
    if |s.trace| <= |t.trace| then t.trace[|s.trace|..] else []
  }

  lemma SettlingTrace(d: Devices, s: State, e: Event)
    requires Settles(e)
    ensures s.trace <= Step(d, s, e).trace
  {
    hide AnswerBalance, ReadPin, ResolveCard, AcceptPin, AskForBalance, PrintReceipt, RequirePaymentPin;
    match e
    case PayConfirm(order, payload, sent) =>
      assert s.trace <= Confirm(s, order, payload, sent).trace;
      hide Confirm;
    case CancelTouch(order, payload, sent) =>
      assert s.trace <= Cancel(s, order, payload, sent).trace;
      hide Cancel;
    case CardDetected(readable, chosen, sent) =>
      assert s.trace <= DetectCard(d, s, readable, chosen, sent).trace;
      hide DetectCard;
    case TransactionAnswer(order, Success(id, reason), sent) =>
      assert s.trace <= Settle(s, order, id, reason).trace;
      hide Settle;
    case _ =>
  }

  lemma TracePrefix(d: Devices, s: State, e: Event)
    ensures s.trace <= Step(d, s, e).trace
  {
    if Settles(e) {
      SettlingTrace(d, s, e);
    } else {
      OtherStepsPay(d, s, e);
    }
    hide Step;
  }

  lemma TraceGrows(d: Devices, s: State, e: Event)
    ensures Step(d, s, e).trace == s.trace + Added(d, s, e)
  {
    TracePrefix(d, s, e);
    hide Step;
  }

  lemma FramesOfSettling(d: Devices, s: State, e: Event, o: Output)
    requires o in Added(d, s, e) && Settles(e)
    ensures o.ConfirmFrame? ==>
              e.PayConfirm? && e.order == o.order && e.sent && o.order in s.transactions &&
              (o.transactionId, o.time) == (s.transactions[o.order].transactionId, s.transactions[o.order].time)
    ensures o.CancelFrame? ==>
              e.CancelTouch? && e.sent && o.order in s.transactions &&
              (e.payload.None? ==> s.pending.active && o.order == s.pending.order && o.payment == s.pending.payment) &&
              (o.transactionId, o.time) == (s.transactions[o.order].transactionId, s.transactions[o.order].time)
    ensures !o.TransactionFrame?
  {
    hide AnswerBalance, ReadPin, ResolveCard, TryPending, AcceptPin, AskForBalance, PrintReceipt, ReportFailure;
    hide RequirePaymentPin;
  }

  /** One step confirms or cancels only on a message that asks for it, with the id stored for the order;
      and it sends a payment only for the pending payment, unchanged. */
  lemma FramesOfStep(d: Devices, s: State, e: Event, o: Output)
    requires o in Added(d, s, e)
    ensures o.ConfirmFrame? ==>
              e.PayConfirm? && e.order == o.order && e.sent && o.order in s.transactions &&
              (o.transactionId, o.time) == (s.transactions[o.order].transactionId, s.transactions[o.order].time)
    ensures o.CancelFrame? ==>
              e.CancelTouch? && e.sent && o.order in s.transactions &&
              (e.payload.None? ==> s.pending.active && o.order == s.pending.order && o.payment == s.pending.payment) &&
              (o.transactionId, o.time) == (s.transactions[o.order].transactionId, s.transactions[o.order].time)
    ensures o.TransactionFrame? ==>
              var p := Step(d, s, e).pending;
              p.active && (o.order, o.payment, o.time) == (p.order, p.payment, p.time) &&
              (Step(d, s, e).cardResolved || e.PinReady?)
  {
    hide Step;
    if Settles(e) {
      FramesOfSettling(d, s, e, o);
    } else {
      OtherStepsPay(d, s, e);
    }
  }

  /** An output of a run and the step that issued it. */
  ghost predicate IssuedAt(d: Devices, events: seq<Event>, k: nat, o: Output) {
    k < |events| && o in Added(d, After(d, events[..k]), events[k])
  }

  lemma {:induction false} IssuedSomewhere(d: Devices, events: seq<Event>, o: Output) returns (k: nat)
    requires o in After(d, events).trace
    ensures IssuedAt(d, events, k, o)
  {
    var n := |events| - 1;
    var s := After(d, events[..n]);
    TraceGrows(d, s, events[n]);
    if o in s.trace {
      k := IssuedSomewhere(d, events[..n], o);
      assert events[..n][..k] == events[..k];
    } else {
      k := n;
    }
  }

  /** Every PAY_CONFIRM or PAY_CANCEL frame of a run carries the id of the success of its order that was
      unsettled when the frame was sent, and the time of the payment request current at that success. */
  lemma SettlementFramesCarryTheStoredId(d: Devices, events: seq<Event>, o: Output) returns (k: nat)
    requires o in After(d, events).trace && (o.ConfirmFrame? || o.CancelFrame?)
    ensures k < |events| && Unsettled(events[..k], o.order) == Some((o.transactionId, o.time))
    ensures if o.ConfirmFrame? then events[k].PayConfirm? && events[k].order == o.order else events[k].CancelTouch?
  {
    k := IssuedSomewhere(d, events, o);
    FramesOfStep(d, After(d, events[..k]), events[k], o);
    TransactionsAreUnsettled(d, events[..k], o.order);
  }

  /** A confirmation request for an order is passed on exactly when the order has an unsettled success, and then as
      one frame with this success's id and time and the requested amounts. */
  lemma ConfirmPassedOnIff(d: Devices, events: seq<Event>, order: OrderId, payload: Option<Payment>)
    ensures var added := Added(d, After(d, events), PayConfirm(order, payload, true));
            match Unsettled(events, order)
            case None => added == []
            case Some((id, time)) =>
              |added| == 1 && added[0].ConfirmFrame? &&
              (added[0].order, added[0].transactionId, added[0].time) == (order, id, time) &&
              added[0].payment == if payload.Some? then payload.value else NO_PAYMENT
  {
    TransactionsAreUnsettled(d, events, order);
    TraceGrows(d, After(d, events), PayConfirm(order, payload, true));
    hide After, Unsettled;
  }

  /** Every PAY_TRANSACTION frame of a run is for the order, amount and time of the payment request that was
      the latest when the frame was sent, and a card is resolved unless the pin pad's own event sent it. */
  lemma PaymentFramesAreRequested(d: Devices, events: seq<Event>, o: Output) returns (k: nat)
    requires o in After(d, events).trace && o.TransactionFrame?
    ensures k < |events| && LatestRequest(events[..k + 1]) == Some(Request(o.order, o.payment, o.time))
    ensures After(d, events[..k + 1]).cardResolved || events[k].PinReady?
  {
    k := IssuedSomewhere(d, events, o);
    FramesOfStep(d, After(d, events[..k]), events[k], o);
    assert events[..k + 1][..k] == events[..k];
    PendingIsLatest(d, events[..k + 1]);
    hide Step, Added;
  }

  /** The pin pad's own event sends what is pending without asking for a card. */
  predicate PinWithoutCard(s: State, e: Event) {
    e.PinReady? && e.complete && e.sent && s.pending.active && !s.cardResolved
  }

  /** A step sends a payment without a resolved card exactly for such an event. */
  lemma StepPaysWithoutCardIff(d: Devices, s: State, e: Event)
    ensures (exists o :: o in Added(d, s, e) && o.TransactionFrame? && !Step(d, s, e).cardResolved) <==>
            PinWithoutCard(s, e)
  {
    TraceGrows(d, s, e);
    if o :| o in Added(d, s, e) && o.TransactionFrame? && !Step(d, s, e).cardResolved {
      FramesOfStep(d, s, e, o);
      hide SendTransaction;
    }
    if PinWithoutCard(s, e) {
      assert Added(d, s, e) == [TransactionFrame(s.pending.order, s.card, e.read, s.pending.time, s.pending.payment)];
      assert Added(d, s, e)[0] in Added(d, s, e);
    }
  }

  /** The run's step at `k` sent a payment, and no card is resolved. */
  ghost predicate PaidWithoutCardAt(d: Devices, events: seq<Event>, k: nat) {
    exists o :: IssuedAt(d, events, k, o) && o.TransactionFrame? && !After(d, events[..k + 1]).cardResolved
  }

  /** Every payment of a run goes out with a resolved card if and only if no complete PIN came from the pin pad
      while a payment was pending and no card was resolved. */
  lemma PaysWithCardIff(d: Devices, events: seq<Event>)
    ensures (forall k :: 0 <= k < |events| ==> !PaidWithoutCardAt(d, events, k)) <==>
            (forall k :: 0 <= k < |events| ==> !PinWithoutCard(After(d, events[..k]), events[k]))
  {
    forall k | 0 <= k < |events|
      ensures PaidWithoutCardAt(d, events, k) <==> PinWithoutCard(After(d, events[..k]), events[k])
    {
      assert events[..k + 1][..k] == events[..k];
      StepPaysWithoutCardIff(d, After(d, events[..k]), events[k]);
      hide Step, Added, PinWithoutCard;
    }
    hide PaidWithoutCardAt, PinWithoutCard, After;
  }

  lemma AfterOneMore(d: Devices, events: seq<Event>, e: Event)
    ensures After(d, events + [e]) == Step(d, After(d, events), e)
  {
    assert (events + [e])[..|events|] == events;
  }

  /** A card is held to the reader and resolved, and the customer's payment asks for a PIN. */
  function AskedForPin(card: Card, order: OrderId, payment: Payment, pinType: nat): seq<Event> {
    [CardDetected(true, true, true)] + [CardAnswer(Resolved(card), false, true)] +
    [PayTransaction(order, Some(payment), 0, true)] + [TransactionAnswer(order, PinRequired(Some(pinType)), true)]
  }

  lemma CardIsRead(d: Devices, card: Card)
    requires d.controller
    ensures var first, second := CardDetected(true, true, true), CardAnswer(Resolved(card), false, true);
            var t := Step(d, INITIAL, first);
            t.resolves == 1 &&
            Step(d, t, second) == INITIAL.(card := card, cardResolved := true,
                                           trace := [CardDetectedNote, ResolveFrame, CardResolvedNote])
  {
  }

  lemma AskedForPinState(d: Devices, card: Card, order: OrderId, payment: Payment, pinType: nat)
    requires d.controller && d.pinpad
    ensures var events := AskedForPin(card, order, payment, pinType);
            var s := After(d, events);
            && Solicited(d, events) && s.card == card
            && s.trace == [CardDetectedNote, ResolveFrame, CardResolvedNote,
                           TransactionFrame(order, card, [], 0, payment), PinFrame(pinType)]
  {
    var e1, e2 := CardDetected(true, true, true), CardAnswer(Resolved(card), false, true);
    var e3 := PayTransaction(order, Some(payment), 0, true);
    var e4 := TransactionAnswer(order, PinRequired(Some(pinType)), true);
    AfterOneMore(d, [], e1);
    assert [] + [e1] == [e1];
    AfterOneMore(d, [e1], e2);
    AfterOneMore(d, [e1] + [e2], e3);
    AfterOneMore(d, [e1] + [e2] + [e3], e4);
    CardIsRead(d, card);
    SolicitedOneMore(d, [], e1);
    SolicitedOneMore(d, [e1], e2);
    SolicitedOneMore(d, [e1] + [e2], e3);
    SolicitedOneMore(d, [e1] + [e2] + [e3], e4);
    hide Solicited;
  }

  lemma SolicitedOneMore(d: Devices, events: seq<Event>, e: Event)
    ensures Solicited(d, events + [e]) <==> Solicited(d, events) && (e.CardAnswer? ==> After(d, events).resolves > 0)
    ensures Solicited(d, [])
  {
    assert (events + [e])[..|events|] == events;
  }

  /** The events of the run below. */
  function LatePin(card: Card, order: OrderId, payment: Payment, pinType: nat, other: OrderId, otherPayment: Payment,
                   pin: Bytes): seq<Event> {
    AskedForPin(card, order, payment, pinType) + [ClearCardData] +
    [PayTransaction(other, Some(otherPayment), 9, true)] + [PinReady(pin, true, true)]
  }

  /** It does happen: while the pin pad still waits for the PIN of one payment, the card is cleared and another
      payment is requested; the late PIN then pays the other order, with no card number at all. */
  lemma LatePinPaysWithoutCard(d: Devices, card: Card, order: OrderId, payment: Payment, pinType: nat,
                               other: OrderId, otherPayment: Payment, pin: Bytes)
    requires d.controller && d.pinpad
    ensures var events := LatePin(card, order, payment, pinType, other, otherPayment, pin);
            var t := After(d, events);
            && Solicited(d, events) && !t.cardResolved
            && t.trace == [CardDetectedNote, ResolveFrame, CardResolvedNote,
                           TransactionFrame(order, card, [], 0, payment), PinFrame(pinType),
                           TransactionFrame(other, card.(number := "", data := []), pin, 9, otherPayment)]
  {
    hide AskedForPin, After, Solicited;
    AskedForPinState(d, card, order, payment, pinType);
    var start := AskedForPin(card, order, payment, pinType);
    var request := PayTransaction(other, Some(otherPayment), 9, true);
    AfterOneMore(d, start, ClearCardData);
    AfterOneMore(d, start + [ClearCardData], request);
    AfterOneMore(d, start + [ClearCardData] + [request], PinReady(pin, true, true));
    SolicitedOneMore(d, start, ClearCardData);
    SolicitedOneMore(d, start + [ClearCardData], request);
    SolicitedOneMore(d, start + [ClearCardData] + [request], PinReady(pin, true, true));
  }

  function Confirms(trace: seq<Output>, order: OrderId): nat {
    if trace == [] then 0
    else Confirms(trace[..|trace| - 1], order) +
         var o := trace[|trace| - 1]; if o.ConfirmFrame? && o.order == order then 1 else 0
  }

  function ConfirmMessages(events: seq<Event>, order: OrderId): nat {
    if events == [] then 0
    else ConfirmMessages(events[..|events| - 1], order) +
         var e := events[|events| - 1]; if e.PayConfirm? && e.order == order then 1 else 0
  }

  lemma {:induction false} NoConfirmsAdded(a: seq<Output>, b: seq<Output>, order: OrderId)
    requires forall o | o in b :: !o.ConfirmFrame? || o.order != order
    ensures Confirms(a + b, order) == Confirms(a, order)
  {
    if b == [] {
      assert a + b == a;
    } else {
      assert (a + b)[..|a + b| - 1] == a + b[..|b| - 1];
      assert b[|b| - 1] in b;
      NoConfirmsAdded(a, b[..|b| - 1], order);
    }
  }

  /** No order is confirmed at the terminal more often than the order logic asked. */
  lemma {:induction false} ConfirmsAreAskedFor(d: Devices, events: seq<Event>, order: OrderId)
    ensures Confirms(After(d, events).trace, order) <= ConfirmMessages(events, order)
  {
    if events != [] {
      var n := |events| - 1;
      var s, e := After(d, events[..n]), events[n];
      ConfirmsAreAskedFor(d, events[..n], order);
      TraceGrows(d, s, e);
      if e.PayConfirm? && e.order == order {
        assert Step(d, s, e).trace == s.trace || Step(d, s, e).trace[..|s.trace|] == s.trace;
      } else {
        forall o | o in Added(d, s, e) ensures !o.ConfirmFrame? || o.order != order {
          FramesOfStep(d, s, e, o);
        }
        NoConfirmsAdded(s.trace, Added(d, s, e), order);
      }
    }
  }

  /** The confirmation request at the end of the events is for the order, reaches the terminal's node, and finds an
      unsettled success. */
  predicate PassedOn(before: seq<Event>, e: Event, order: OrderId) {
    e.PayConfirm? && e.order == order && e.sent && Unsettled(before, order).Some?
  }

  function PassedOnRequests(events: seq<Event>, order: OrderId): nat {
    if events == [] then 0
    else
      var before := events[..|events| - 1];
      PassedOnRequests(before, order) + if PassedOn(before, events[|events| - 1], order) then 1 else 0
  }

  lemma OneConfirmed(trace: seq<Output>, o: Output, order: OrderId)
    requires o.ConfirmFrame? && o.order == order
    ensures Confirms(trace + [o], order) == Confirms(trace, order) + 1
  {
    assert (trace + [o])[..|trace|] == trace;
  }

  lemma RefusedConfirm(s: State, order: OrderId, payload: Option<Payment>)
    ensures Confirm(s, order, payload, false) == s
  {
  }

  /** Exactly the confirmation requests that find an unsettled success become PAY_CONFIRM frames, one each. */
  lemma {:induction false} ConfirmsArePassedOn(d: Devices, events: seq<Event>, order: OrderId)
    ensures Confirms(After(d, events).trace, order) == PassedOnRequests(events, order)
  {
    if events != [] {
      var n := |events| - 1;
      var s, e := After(d, events[..n]), events[n];
      ConfirmsArePassedOn(d, events[..n], order);
      TraceGrows(d, s, e);
      if e.PayConfirm? && e.order == order {
        ConfirmPassedOnIff(d, events[..n], order, e.payload);
        RefusedConfirm(s, order, e.payload);
        if PassedOn(events[..n], e, order) {
          OneConfirmed(s.trace, Added(d, s, e)[0], order);
          assert Added(d, s, e) == [Added(d, s, e)[0]];
        } else {
          assert Added(d, s, e) == [];
          assert s.trace + [] == s.trace;
        }
      } else {
        forall o | o in Added(d, s, e) ensures !o.ConfirmFrame? || o.order != order {
          FramesOfStep(d, s, e, o);
        }
        NoConfirmsAdded(s.trace, Added(d, s, e), order);
      }
    }
  }

  // ------------------------------------------------------------ lost card taps

  /** Answers to a resolve request arrive only while one is outstanding. */
  ghost predicate Solicited(d: Devices, events: seq<Event>) {
    events != [] ==>
      Solicited(d, events[..|events| - 1]) &&
      (events[|events| - 1].CardAnswer? ==> After(d, events[..|events| - 1]).resolves > 0)
  }

  /** A card was accepted for resolving, but no request for it could be sent. */
  ghost predicate LostTap(d: Devices, events: seq<Event>) {
    events != [] &&
    var s, e := After(d, events[..|events| - 1]), events[|events| - 1];
    LostTap(d, events[..|events| - 1]) ||
    (e.CardDetected? && !(s.cardResolved || s.resolving || s.pending.active) &&
     !(e.readable && d.controller && e.sent))
  }

  lemma StepResolving(d: Devices, s: State, e: Event)
    ensures var t := Step(d, s, e);
            if e.CardAnswer? then !t.resolving && t.resolves == if s.resolves > 0 then s.resolves - 1 else 0
            else if e.CardDetected? && !(s.cardResolved || s.resolving || s.pending.active) then
              t.resolving && t.resolves == s.resolves + if e.readable && d.controller && e.sent then 1 else 0
            else (t.resolving, t.resolves) == (s.resolving, s.resolves)
  {
    hide AnswerBalance, ReadPin, ResolveCard, AcceptPin, AskForBalance, PrintReceipt, RequirePaymentPin;
    if !Settles(e) {
      OtherStepsPay(d, s, e);
      hide Step;
    }
  }

  /** In every run at most one resolve request is outstanding, and the busy flag means just that, in exactly
      the runs without a lost tap; after one, the flag stays set and no later card is ever looked at. */
  lemma {:induction false} ResolvingMeansOutstandingIff(d: Devices, events: seq<Event>)
    requires Solicited(d, events)
    ensures var s := After(d, events);
            if LostTap(d, events) then s.resolving && s.resolves == 0
            else (s.resolving <==> s.resolves == 1) && s.resolves <= 1
  {
    if events != [] {
      ResolvingMeansOutstandingIff(d, events[..|events| - 1]);
      StepResolving(d, After(d, events[..|events| - 1]), events[|events| - 1]);
      hide Step;
    }
  }

  lemma CardsIgnoredAfterLostTap(d: Devices, events: seq<Event>, e: Event)
    requires Solicited(d, events) && LostTap(d, events) && e.CardDetected?
    ensures After(d, events + [e]) == After(d, events)
  {
    ResolvingMeansOutstandingIff(d, events);
    assert (events + [e])[..|events|] == events;
  }

  // ------------------------------------------------------------ the object

  /** The payment object.  `resolves` and `trace` record what it asked of the terminal and told the order logic. */
  class Arkaim {
    const devices: Devices
    var cardResolved: bool
    var cardResolveInProgress: bool
    var card: Card
    var pinData: Bytes
    var pinType: nat
    var waitingPin: bool
    var waitingPinForBalance: bool
    var pendingPayment: Pending
    var orderTransactions: map<OrderId, ActiveOrder>
    ghost var resolves: nat
    ghost var trace: seq<Output>

    constructor (devices: Devices)
      ensures this.devices == devices && Abs() == INITIAL
    {
      this.devices := devices;
      cardResolved, cardResolveInProgress, card, pinData := false, false, Card(0, 0, "", []), [];
      pinType, waitingPin, waitingPinForBalance := 0, false, false;
      pendingPayment, orderTransactions := Pending(false, "", NO_PAYMENT, 0), map[];
      resolves, trace := 0, [];
    }

    ghost function Abs(): State
      reads this
    {
      State(cardResolved, cardResolveInProgress, card, pinData, pinType, waitingPin, waitingPinForBalance,
            pendingPayment, orderTransactions, resolves, trace)
    }

    ghost method Output(o: Output)
      modifies this`trace
      ensures Abs() == Emit(old(Abs()), o)
    {
      trace := trace + [o];
    }

    method ResetCardState()
      modifies this
      ensures Abs() == ResetCard(old(Abs()))
    {
      cardResolved := false;
      card := card.(number := "", data := []);
      pinData := [];
      pendingPayment := pendingPayment.(active := false);
    }

    method Deactivate()
      modifies this
      ensures Abs() == Inactive(old(Abs()))
    {
      pendingPayment := pendingPayment.(active := false);
    }

    /** A failed result; the order logic's call back happens before this returns. */
    method SendPaymentFailure(order: OrderId, reason: Reason)
      modifies this
      ensures Abs() == ReportFailure(old(Abs()), order, reason)
    {
      Output(PaymentResult(order, false, 0, reason));
      if ReactsWithClear(reason) {
        ResetCardState();
      }
    }

    method SendTransactionFrame(order: OrderId, payment: Payment, sent: bool)
      modifies this
      ensures Abs() == SendTransaction(old(Abs()), order, payment, sent)
    {
      if !sent {
        SendPaymentFailure(order, SendError);
        Deactivate();
      } else {
        Output(TransactionFrame(order, card, pinData, pendingPayment.time, payment));
      }
    }

    method TryProcessPendingPayment(sent: bool)
      modifies this
      ensures Abs() == TryPending(old(Abs()), sent)
    {
      if !pendingPayment.active || !cardResolved {
        return;
      }
      SendTransactionFrame(pendingPayment.order, pendingPayment.payment, sent);
    }

    method HandlePayTransaction(order: OrderId, payload: Option<Payment>, now: nat, sent: bool)
      modifies this
      ensures Abs() == Step(devices, old(Abs()), PayTransaction(order, payload, now, sent))
    {
      if payload.None? {
        SendPaymentFailure(order, DeserializeError);
        return;
      }
      pendingPayment := Pending(true, order, payload.value, now);
      TryProcessPendingPayment(sent);
    }

    method HandleConfirm(order: OrderId, payload: Option<Payment>, sent: bool)
      modifies this
      ensures Abs() == Confirm(old(Abs()), order, payload, sent)
    {
      if order !in orderTransactions {
        return;
      }
      var activeOrder := orderTransactions[order];
      var payment := NO_PAYMENT;
      if payload.Some? {
        payment := payload.value;
      }
      if sent {
        Output(ConfirmFrame(order, card.(number := activeOrder.number, data := activeOrder.data),
                            activeOrder.transactionId, activeOrder.time, payment));
      }
    }

    method HandleCancel(order: OrderId, payload: Option<Payment>, sent: bool)
      modifies this
      ensures Abs() == Cancel(old(Abs()), order, payload, sent)
    {
      var orderId, payment := order, NO_PAYMENT;
      if payload.Some? {
        payment := payload.value;
      } else {
        if !pendingPayment.active {
          return;
        }
        orderId, payment := pendingPayment.order, pendingPayment.payment;
      }
      if orderId !in orderTransactions {
        return;
      }
      var activeOrder := orderTransactions[orderId];
      if sent {
        Output(CancelFrame(orderId, card.(number := activeOrder.number, data := activeOrder.data),
                           activeOrder.transactionId, activeOrder.time, payment));
      }
    }

    method SendGetBalance(sent: bool)
      modifies this
      ensures Abs() == SendBalance(old(Abs()), sent)
    {
      if sent {
        Output(BalanceFrame(card, pinData));
      }
    }

    method HandleGetBalance(sent: bool)
      modifies this
      ensures Abs() == AskForBalance(old(Abs()), sent)
    {
      if !cardResolved {
        return;
      }
      SendGetBalance(sent);
    }

    method HandlePinEntered(pin: Bytes, sent: bool)
      modifies this
      ensures Abs() == AcceptPin(old(Abs()), pin, sent)
    {
      pinData := pin;
      if waitingPinForBalance {
        waitingPinForBalance := false;
        SendGetBalance(sent);
      } else {
        waitingPin := false;
        TryProcessPendingPayment(sent);
      }
    }

    method HandlePrintDebitReceipt(order: OrderId)
      modifies this
      ensures Abs() == PrintReceipt(devices, old(Abs()), order)
    {
      if !devices.printer {
        return;
      }
      var transactionId := 0;
      if order in orderTransactions {
        transactionId := orderTransactions[order].transactionId;
      }
      Output(DebitReceipt(order, card.number, transactionId));
    }

    method OnCardDetected(readable: bool, dispenserChosen: bool, sent: bool)
      modifies this
      ensures Abs() == DetectCard(devices, old(Abs()), readable, dispenserChosen, sent)
    {
      if cardResolved || cardResolveInProgress || pendingPayment.active {
        return;
      }
      cardResolveInProgress := true;
      if !readable {
        return;
      }
      if !devices.controller {
        return;
      }
      if card.number == "" {
        Output(CardDetectedNote);
        if !dispenserChosen {
          ResetCardState();
        }
      }
      if sent {
        Output(ResolveFrame);
        resolves := resolves + 1;
      }
    }

    method OnCardResolve(reply: ResolveReply, balanceSent: bool, sent: bool)
      modifies this
      ensures Abs() == ResolveCard(old(Abs()), reply, balanceSent, sent)
    {
      hide SendTransaction, TryPending, AskForBalance;
      cardResolveInProgress := false;
      resolves := if resolves > 0 then resolves - 1 else 0;
      match reply
      case ResolveError =>
        ResetCardState();
        Output(CardErrorNote);
      case ResolveUnreadable(partial) =>
        card := partial;
      case Resolved(read) =>
        card := read;
        cardResolved := true;
        pinData := [];
        Output(CardResolvedNote);
        HandleGetBalance(balanceSent);
        TryProcessPendingPayment(sent);
    }

    method ProcessPaymentPinRequired(order: OrderId, kind: Option<nat>, sent: bool)
      modifies this
      ensures Abs() == RequirePaymentPin(devices, old(Abs()), order, kind, sent)
    {
      if kind.None? {
        SendPaymentFailure(order, PinTypeError);
        Deactivate();
        return;
      }
      pinType := kind.value;
      if !devices.pinpad {
        waitingPin := true;
        SendPaymentFailure(order, NoPinpad);
        return;
      }
      if sent {
        Output(PinFrame(kind.value));
      } else {
        SendPaymentFailure(order, PinRequestError);
        Deactivate();
        waitingPin := false;
        waitingPinForBalance := false;
      }
    }

    method OnTransactionResponse(order: OrderId, reply: TransactionReply, sent: bool)
      modifies this
      ensures Abs() == AnswerTransaction(devices, old(Abs()), order, reply, sent)
    {
      hide ReportFailure, RequirePaymentPin;
      match reply
      case PinRequired(kind) => ProcessPaymentPinRequired(order, kind, sent);
      case Error(code) =>
        SendPaymentFailure(order, TransactionError(code));
        Deactivate();
      case Unreadable =>
        SendPaymentFailure(order, ParseError);
        Deactivate();
      case Success(transactionId, reason) =>
        var activeOrder := ActiveOrder(transactionId, card.number, card.data, pinData, pendingPayment.time);
        orderTransactions := orderTransactions[order := activeOrder];
        Output(PaymentResult(order, true, transactionId, reason));
      case InvalidPin(reason) => SendPaymentFailure(order, reason);
      case GenericError(reason) => SendPaymentFailure(order, reason);
      case Refused(reason) =>
        SendPaymentFailure(order, reason);
        Deactivate();
    }

    method OnConfirmResponse(order: OrderId, error: bool)
      modifies this
      ensures Abs() == Step(devices, old(Abs()), ConfirmAnswer(order, error))
    {
      if !error {
        Output(ConfirmDone(order));
      }
      Deactivate();
      orderTransactions := orderTransactions - {order};
    }

    method OnCancelResponse(order: OrderId, error: bool)
      modifies this
      ensures Abs() == Step(devices, old(Abs()), CancelAnswer(order, error))
    {
      if error {
        return;
      }
      Output(CancelDone(order));
      Deactivate();
      orderTransactions := orderTransactions - {order};
    }

    method OnGetBalanceResponse(reply: BalanceReply)
      modifies this
      ensures Abs() == AnswerBalance(devices, old(Abs()), reply)
    {
      match reply
      case BalancePinRequired(kind) =>
        if kind.None? {
          Output(BalanceResult(false, PinTypeError));
        } else {
          pinType := kind.value;
          if !devices.pinpad {
            waitingPinForBalance := true;
            Output(BalanceResult(false, NoPinpad));
          } else {
            Output(PinFrame(kind.value));
          }
        }
      case BalanceError =>
        ResetCardState();
        Output(BalanceResult(false, OtherReason("NON_RECOGNIZED_ERROR")));
      case BalanceUnreadable =>
      case BalanceOk(receipt) => Output(BalanceResult(true, receipt));
      case BalanceInvalidPin =>
        waitingPinForBalance := true;
        Output(BalanceResult(false, IncorrectPin));
      case BalanceRefused =>
    }

    method OnPinReady(read: Bytes, complete: bool, sent: bool)
      modifies this
      ensures Abs() == ReadPin(old(Abs()), read, complete, sent)
    {
      pinData := read;
      if !complete {
        if pendingPayment.active {
          SendPaymentFailure(pendingPayment.order, PinReadError);
          Deactivate();
        }
        waitingPin := false;
        return;
      }
      waitingPin := false;
      if pendingPayment.active {
        SendTransactionFrame(pendingPayment.order, pendingPayment.payment, sent);
      }
    }

    /** The dispatch over everything that can reach the object: messages of the other layers by their type, and
        the call backs of the terminal's node. */
    method Handle(e: Event)
      modifies this
      ensures Abs() == Step(devices, old(Abs()), e)
    {
      hide Confirm, Cancel, AcceptPin, AskForBalance, PrintReceipt, DetectCard, ResolveCard;
      hide AnswerTransaction, AnswerBalance, ReadPin, ReportFailure, TryPending;
      match e
      case ClearCardData => ResetCardState();
      case PayTransaction(order, payload, now, sent) => HandlePayTransaction(order, payload, now, sent);
      case PayConfirm(order, payload, sent) => HandleConfirm(order, payload, sent);
      case CancelTouch(order, payload, sent) => HandleCancel(order, payload, sent);
      case PinEntered(pin, sent) => HandlePinEntered(pin, sent);
      case GetBalance(sent) => HandleGetBalance(sent);
      case PrintDebit(order) => HandlePrintDebitReceipt(order);
      case OtherMessage =>
      case CardDetected(readable, chosen, sent) => OnCardDetected(readable, chosen, sent);
      case CardAnswer(reply, balanceSent, sent) => OnCardResolve(reply, balanceSent, sent);
      case TransactionAnswer(order, reply, sent) => OnTransactionResponse(order, reply, sent);
      case ConfirmAnswer(order, error) => OnConfirmResponse(order, error);
      case CancelAnswer(order, error) => OnCancelResponse(order, error);
      case BalanceAnswer(reply) => OnGetBalanceResponse(reply);
      case PinReady(read, complete, sent) => OnPinReady(read, complete, sent);
    }
  }
}
