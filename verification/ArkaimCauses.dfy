/** What the payment object sends and reports for, and what becomes of the card, the PIN and the pending payment. */
module ArkaimCauses {
  import opened Basics
  import opened ArkaimLogic

  // ------------------------------------------------------------- the causes

  /** The step tries to send the pending payment. */
  predicate Attempts(s: State, e: Event) {
    match e
    case PayTransaction(_, payload, _, _) => payload.Some? && s.cardResolved
    case PinEntered(_, _) => !s.waitingPinForBalance && s.pending.active && s.cardResolved
    case CardAnswer(reply, _, _) => reply.Resolved? && s.pending.active
    case PinReady(_, complete, _) => complete && s.pending.active
    case _ => false
  }

  /** The payment that is pending while the event is handled. */
  function PendingNow(s: State, e: Event): Pending {
    match e
    case PayTransaction(order, Some(payment), now, _) => Pending(true, order, payment, now)
    case _ => s.pending
  }

  predicate Accepted(e: Event) {
    match e
    case PayTransaction(_, _, _, sent) => sent
    case PinEntered(_, sent) => sent
    case CardAnswer(_, _, sent) => sent
    case PinReady(_, _, sent) => sent
    case _ => false
  }

  /** The card and the PIN as the event gives them. */
  function CardNow(s: State, e: Event): Card {
    match e
    case CardAnswer(Resolved(card), _, _) => card
    case CardAnswer(ResolveUnreadable(partial), _, _) => partial
    case _ => s.card
  }

  function PinNow(s: State, e: Event): Bytes {
    match e
    case CardAnswer(Resolved(_), _, _) => []
    case PinEntered(pin, _) => pin
    case PinReady(read, _, _) => read
    case _ => s.pin
  }

  /** The reason of the payment failure that the event leads to, if any. */
  function Failure(d: Devices, s: State, e: Event): Option<Reason> {
    if Attempts(s, e) then if Accepted(e) then None else Some(SendError)
    else
      match e
      case PayTransaction(_, None, _, _) => Some(DeserializeError)
      case PinReady(_, complete, _) => if !complete && s.pending.active then Some(PinReadError) else None
      case TransactionAnswer(_, reply, sent) =>
        (match reply
         case PinRequired(kind) =>
           if kind.None? then Some(PinTypeError) else if !d.pinpad then Some(NoPinpad)
           else if sent then None else Some(PinRequestError)
         case Error(code) => Some(TransactionError(code))
         case Unreadable => Some(ParseError)
         case Success(_, _) => None
         case InvalidPin(reason) => Some(reason)
         case GenericError(reason) => Some(reason)
         case Refused(reason) => Some(reason))
      case _ => None
  }

  function FailedOrder(s: State, e: Event): OrderId {
    match e
    case TransactionAnswer(order, _, _) => order
    case PayTransaction(order, _, _, _) => order
    case _ => s.pending.order
  }

  /** A card that the object takes a look at. */
  predicate Looks(s: State, e: Event) {
    e.CardDetected? && !s.cardResolved && !s.resolving && !s.pending.active
  }

  /** The order a cancellation is about: the one it names, or the pending one. */
  function CancelledOrder(s: State, e: Event): Option<(OrderId, Payment)>
    requires e.CancelTouch?
  {
    if e.payload.Some? then Some((e.order, e.payload.value))
    else if s.pending.active then Some((s.pending.order, s.pending.payment)) else None
  }

  /** What must be so, before the event, for the output to be issued. */
  predicate Due(d: Devices, s: State, e: Event, o: Output) {
    match o
    case ResolveFrame => Looks(s, e) && e.readable && d.controller && e.sent
    case CardDetectedNote => Looks(s, e) && e.readable && d.controller && s.card.number == ""
    case CardResolvedNote => e.CardAnswer? && e.reply.Resolved?
    case CardErrorNote => e.CardAnswer? && e.reply.ResolveError?
    case TransactionFrame(order, card, pin, time, payment) =>
      Attempts(s, e) && Accepted(e) && card == CardNow(s, e) && pin == PinNow(s, e) &&
      Pending(true, order, payment, time) == PendingNow(s, e)
    case ConfirmFrame(order, card, transactionId, time, payment) =>
      e.PayConfirm? && e.sent && order == e.order && order in s.transactions &&
      transactionId == s.transactions[order].transactionId && time == s.transactions[order].time &&
      card == Card(s.card.reader, s.card.api, s.transactions[order].number, s.transactions[order].data) &&
      payment == if e.payload.Some? then e.payload.value else NO_PAYMENT
    case CancelFrame(order, card, transactionId, time, payment) =>
      e.CancelTouch? && e.sent && CancelledOrder(s, e) == Some((order, payment)) && order in s.transactions &&
      transactionId == s.transactions[order].transactionId && time == s.transactions[order].time &&
      card == Card(s.card.reader, s.card.api, s.transactions[order].number, s.transactions[order].data)
    case BalanceFrame(card, pin) =>
      card == CardNow(s, e) && pin == PinNow(s, e) &&
      ((e.GetBalance? && e.sent && s.cardResolved) ||
       (e.CardAnswer? && e.reply.Resolved? && e.balanceSent) ||
       (e.PinEntered? && s.waitingPinForBalance && e.sent))
    case PinFrame(kind) =>
      d.pinpad &&
      ((e.TransactionAnswer? && e.transactionReply == PinRequired(Some(kind)) && e.sent) ||
       (e.BalanceAnswer? && e.balanceReply == BalancePinRequired(Some(kind))))
    case PaymentResult(order, success, transactionId, reason) =>
      if success then e.TransactionAnswer? && e.order == order && e.transactionReply == Success(transactionId, reason)
      else Failure(d, s, e) == Some(reason) && order == FailedOrder(s, e) && transactionId == 0
    case ConfirmDone(order) => e == ConfirmAnswer(order, false)
    case CancelDone(order) => e == CancelAnswer(order, false)
    case BalanceResult(success, reason) =>
      e.BalanceAnswer? &&
      (match e.balanceReply
       case BalancePinRequired(kind) =>
         !success && ((kind.None? && reason == PinTypeError) || (kind.Some? && !d.pinpad && reason == NoPinpad))
       case BalanceError => !success && reason == OtherReason("NON_RECOGNIZED_ERROR")
       case BalanceUnreadable => false
       case BalanceOk(receipt) => success && reason == receipt
       case BalanceInvalidPin => !success && reason == IncorrectPin
       case BalanceRefused => false)
    case DebitReceipt(order, number, transactionId) =>
      e == PrintDebit(order) && d.printer && number == s.card.number &&
      transactionId == if order in s.transactions then s.transactions[order].transactionId else 0
  }

  // -------------------------------------------------------- traces of pieces

  lemma FailureTrace(s: State, order: OrderId, r: Reason)
    ensures ReportFailure(s, order, r).trace == s.trace + [PaymentResult(order, false, 0, r)]
    ensures Inactive(ReportFailure(s, order, r)).trace == s.trace + [PaymentResult(order, false, 0, r)]
  {
  }

  lemma SendTrace(s: State, order: OrderId, payment: Payment, sent: bool)
    ensures SendTransaction(s, order, payment, sent).trace ==
            s.trace + [if sent then TransactionFrame(order, s.card, s.pin, s.pending.time, payment)
                       else PaymentResult(order, false, 0, SendError)]
  {
    FailureTrace(s, order, SendError);
    hide ReportFailure;
  }

  lemma TryTrace(s: State, sent: bool)
    ensures TryPending(s, sent).trace ==
            s.trace + if s.pending.active && s.cardResolved
                      then [if sent
                            then TransactionFrame(s.pending.order, s.card, s.pin, s.pending.time, s.pending.payment)
                            else PaymentResult(s.pending.order, false, 0, SendError)]
                      else []
  {
    if s.pending.active && s.cardResolved {
      SendTrace(s, s.pending.order, s.pending.payment, sent);
    }
    hide SendTransaction;
  }

  lemma ResolveTrace(s: State, card: Card, balanceSent: bool, sent: bool)
    ensures ResolveCard(s, Resolved(card), balanceSent, sent).trace ==
            s.trace + [CardResolvedNote] + (if balanceSent then [BalanceFrame(card, [])] else []) +
            if s.pending.active
            then [if sent then TransactionFrame(s.pending.order, card, [], s.pending.time, s.pending.payment)
                  else PaymentResult(s.pending.order, false, 0, SendError)]
            else []
  {
    hide TryPending;
    var t := s.(resolving := false, resolves := if s.resolves > 0 then s.resolves - 1 else 0,
                card := card, cardResolved := true, pin := []);
    var u := AskForBalance(Emit(t, CardResolvedNote), balanceSent);
    TryTrace(u, sent);
  }

  lemma PinAnswerTrace(d: Devices, s: State, order: OrderId, kind: Option<nat>, sent: bool)
    ensures RequirePaymentPin(d, s, order, kind, sent).trace ==
            s.trace + [if kind.None? then PaymentResult(order, false, 0, PinTypeError)
                       else if !d.pinpad then PaymentResult(order, false, 0, NoPinpad)
                       else if sent then PinFrame(kind.value) else PaymentResult(order, false, 0, PinRequestError)]
  {
    hide ReportFailure;
    FailureTrace(s, order, PinTypeError);
    if kind.Some? {
      var t := s.(pinType := kind.value);
      FailureTrace(t.(waitingPin := true), order, NoPinpad);
      FailureTrace(t, order, PinRequestError);
    }
  }

  lemma PinTrace(s: State, pin: Bytes, sent: bool)
    ensures AcceptPin(s, pin, sent).trace ==
            s.trace + if s.waitingPinForBalance then if sent then [BalanceFrame(s.card, pin)] else []
                      else if s.pending.active && s.cardResolved
                      then [if sent
                            then TransactionFrame(s.pending.order, s.card, pin, s.pending.time, s.pending.payment)
                            else PaymentResult(s.pending.order, false, 0, SendError)]
                      else []
  {
    hide TryPending;
    TryTrace(s.(pin := pin, waitingPin := false), sent);
  }

  lemma ReadTrace(s: State, read: Bytes, complete: bool, sent: bool)
    ensures ReadPin(s, read, complete, sent).trace ==
            s.trace + if !s.pending.active then []
                      else if !complete then [PaymentResult(s.pending.order, false, 0, PinReadError)]
                      else [if sent
                            then TransactionFrame(s.pending.order, s.card, read, s.pending.time, s.pending.payment)
                            else PaymentResult(s.pending.order, false, 0, SendError)]
  {
    hide SendTransaction, ReportFailure;
    SendTrace(s.(pin := read, waitingPin := false), s.pending.order, s.pending.payment, sent);
    FailureTrace(s.(pin := read), s.pending.order, PinReadError);
  }

  // ------------------------------------------------ every output, one event each

  /** What trying to send the pending payment issues. */
  function Attempted(s: State, e: Event): Output {
    var p := PendingNow(s, e);
    if Accepted(e) then TransactionFrame(p.order, CardNow(s, e), PinNow(s, e), p.time, p.payment)
    else PaymentResult(p.order, false, 0, SendError)
  }

  /** The outputs of an event in their order. */
  function Outputs(d: Devices, s: State, e: Event): seq<Output> {
    match e
    case PayTransaction(order, payload, _, _) =>
      if payload.None? then [PaymentResult(order, false, 0, DeserializeError)]
      else if s.cardResolved then [Attempted(s, e)] else []
    case PayConfirm(order, payload, sent) =>
      if order !in s.transactions || !sent then []
      else
        var a := s.transactions[order];
        [ConfirmFrame(order, Card(s.card.reader, s.card.api, a.number, a.data), a.transactionId, a.time,
                      if payload.Some? then payload.value else NO_PAYMENT)]
    case CancelTouch(_, _, sent) => CancelOutputs(s, CancelledOrder(s, e), sent)
    case PinEntered(pin, sent) =>
      if s.waitingPinForBalance then if sent then [BalanceFrame(s.card, pin)] else []
      else if s.pending.active && s.cardResolved then [Attempted(s, e)] else []
    case GetBalance(sent) => if s.cardResolved && sent then [BalanceFrame(s.card, s.pin)] else []
    case PrintDebit(order) =>
      if d.printer
      then [DebitReceipt(order, s.card.number,
                         if order in s.transactions then s.transactions[order].transactionId else 0)]
      else []
    case CardDetected(readable, _, sent) =>
      if !Looks(s, e) || !readable || !d.controller then []
      else (if s.card.number == "" then [CardDetectedNote] else []) + if sent then [ResolveFrame] else []
    case CardAnswer(reply, balanceSent, _) =>
      (match reply
       case ResolveError => [CardErrorNote]
       case ResolveUnreadable(_) => []
       case Resolved(card) =>
         [CardResolvedNote] + (if balanceSent then [BalanceFrame(card, [])] else []) +
         if s.pending.active then [Attempted(s, e)] else [])
    case TransactionAnswer(order, reply, sent) => AnswerOutputs(d, s, order, reply, sent)
    case ConfirmAnswer(order, error) => if error then [] else [ConfirmDone(order)]
    case CancelAnswer(order, error) => if error then [] else [CancelDone(order)]
    case BalanceAnswer(reply) => BalanceOutputs(d, reply)
    case PinReady(_, complete, _) =>
      if !s.pending.active then []
      else if complete then [Attempted(s, e)] else [PaymentResult(s.pending.order, false, 0, PinReadError)]
    case _ => []
  }

  function CancelOutputs(s: State, cancelled: Option<(OrderId, Payment)>, sent: bool): seq<Output> {
    if cancelled.None? || cancelled.value.0 !in s.transactions || !sent then []
    else
      var a := s.transactions[cancelled.value.0];
      [CancelFrame(cancelled.value.0, Card(s.card.reader, s.card.api, a.number, a.data), a.transactionId, a.time,
                   cancelled.value.1)]
  }

  function AnswerOutputs(d: Devices, s: State, order: OrderId, reply: TransactionReply, sent: bool): seq<Output> {
    match reply
    case PinRequired(kind) =>
      [if kind.None? then PaymentResult(order, false, 0, PinTypeError)
       else if !d.pinpad then PaymentResult(order, false, 0, NoPinpad)
       else if sent then PinFrame(kind.value) else PaymentResult(order, false, 0, PinRequestError)]
    case Error(code) => [PaymentResult(order, false, 0, TransactionError(code))]
    case Unreadable => [PaymentResult(order, false, 0, ParseError)]
    case Success(id, reason) => [PaymentResult(order, true, id, reason)]
    case InvalidPin(reason) => [PaymentResult(order, false, 0, reason)]
    case GenericError(reason) => [PaymentResult(order, false, 0, reason)]
    case Refused(reason) => [PaymentResult(order, false, 0, reason)]
  }

  function BalanceOutputs(d: Devices, reply: BalanceReply): seq<Output> {
    match reply
    case BalancePinRequired(kind) =>
      [if kind.None? then BalanceResult(false, PinTypeError)
       else if !d.pinpad then BalanceResult(false, NoPinpad) else PinFrame(kind.value)]
    case BalanceError => [BalanceResult(false, OtherReason("NON_RECOGNIZED_ERROR"))]
    case BalanceUnreadable => []
    case BalanceOk(receipt) => [BalanceResult(true, receipt)]
    case BalanceInvalidPin => [BalanceResult(false, IncorrectPin)]
    case BalanceRefused => []
  }

  predicate Issues(d: Devices, s: State, e: Event) {
    Step(d, s, e).trace == s.trace + Outputs(d, s, e)
  }

  lemma PaymentIssues(d: Devices, s: State, e: Event)
    requires e.PayTransaction?
    ensures Issues(d, s, e)
  {
    hide TryPending, ReportFailure;
    FailureTrace(s, e.order, DeserializeError);
    if e.payload.Some? {
      TryTrace(s.(pending := PendingNow(s, e)), e.sent);
    }
  }

  lemma SettlementIssues(d: Devices, s: State, e: Event)
    requires e.PayConfirm? || e.ConfirmAnswer? || e.CancelAnswer? || e.ClearCardData? || e.OtherMessage? ||
             e.GetBalance?
    ensures Issues(d, s, e)
  {
  }

  lemma CancelIssues(d: Devices, s: State, e: Event)
    requires e.CancelTouch? || e.PrintDebit?
    ensures Issues(d, s, e)
  {
  }

  lemma PinIssues(d: Devices, s: State, e: Event)
    requires e.PinEntered? || e.PinReady?
    ensures Issues(d, s, e)
  {
    hide AcceptPin, ReadPin;
    if e.PinEntered? {
      PinTrace(s, e.pin, e.sent);
    } else {
      ReadTrace(s, e.read, e.complete, e.sent);
    }
  }

  lemma DetectionIssues(d: Devices, s: State, e: Event)
    requires e.CardDetected?
    ensures Issues(d, s, e)
  {
  }

  lemma ResolvedIssues(d: Devices, s: State, e: Event)
    requires e.CardAnswer?
    ensures Issues(d, s, e)
  {
    if e.reply.Resolved? {
      ResolveTrace(s, e.reply.card, e.balanceSent, e.sent);
      hide ResolveCard;
    }
  }

  lemma AnswerIssues(d: Devices, s: State, e: Event)
    requires e.TransactionAnswer?
    ensures Issues(d, s, e)
  {
    hide ReportFailure, RequirePaymentPin;
    match e.transactionReply
    case PinRequired(kind) => PinAnswerTrace(d, s, e.order, kind, e.sent);
    case Success(_, _) =>
    case Error(code) => FailureTrace(s, e.order, TransactionError(code));
    case Unreadable => FailureTrace(s, e.order, ParseError);
    case InvalidPin(r) => FailureTrace(s, e.order, r);
    case GenericError(r) => FailureTrace(s, e.order, r);
    case Refused(r) => FailureTrace(s, e.order, r);
  }

  lemma BalanceIssues(d: Devices, s: State, e: Event)
    requires e.BalanceAnswer?
    ensures Issues(d, s, e)
  {
  }

  /** The outputs of every step and their order. */
  lemma StepIssues(d: Devices, s: State, e: Event)
    ensures Added(d, s, e) == Outputs(d, s, e)
  {
    hide Step, Outputs;
    match e
    case PayTransaction(_, _, _, _) => PaymentIssues(d, s, e);
    case PinEntered(_, _) => PinIssues(d, s, e);
    case PinReady(_, _, _) => PinIssues(d, s, e);
    case CardDetected(_, _, _) => DetectionIssues(d, s, e);
    case CardAnswer(_, _, _) => ResolvedIssues(d, s, e);
    case TransactionAnswer(_, _, _) => AnswerIssues(d, s, e);
    case CancelTouch(_, _, _) => CancelIssues(d, s, e);
    case PrintDebit(_) => CancelIssues(d, s, e);
    case BalanceAnswer(_) => BalanceIssues(d, s, e);
    case _ => SettlementIssues(d, s, e);
  }

  lemma DueOfPayments(d: Devices, s: State, e: Event, o: Output)
    requires e.PayTransaction? || e.PinEntered? || e.PinReady?
    ensures o in Outputs(d, s, e) <==> Due(d, s, e, o)
  {
  }

  lemma DueOfSettlements(d: Devices, s: State, e: Event, o: Output)
    requires e.PayConfirm? || e.CancelTouch? || e.ConfirmAnswer? || e.CancelAnswer?
    ensures o in Outputs(d, s, e) <==> Due(d, s, e, o)
  {
  }

  lemma DueOfCards(d: Devices, s: State, e: Event, o: Output)
    requires e.CardDetected? || e.CardAnswer?
    ensures o in Outputs(d, s, e) <==> Due(d, s, e, o)
  {
  }

  lemma DueOfAnswers(d: Devices, s: State, e: Event, o: Output)
    requires e.TransactionAnswer?
    ensures o in Outputs(d, s, e) <==> Due(d, s, e, o)
  {
  }

  lemma DueOfOthers(d: Devices, s: State, e: Event, o: Output)
    requires e.ClearCardData? || e.GetBalance? || e.PrintDebit? || e.OtherMessage? || e.BalanceAnswer?
    ensures o in Outputs(d, s, e) <==> Due(d, s, e, o)
  {
  }

  /** Every frame, note, result and receipt is issued by a step if and only if it is due: with the card, PIN, amount,
      transaction id and time that the causes name. */
  lemma IssuedIffDue(d: Devices, s: State, e: Event, o: Output)
    ensures o in Added(d, s, e) <==> Due(d, s, e, o)
  {
    hide Outputs, Due, Added;
    StepIssues(d, s, e);
    match e
    case PayTransaction(_, _, _, _) => DueOfPayments(d, s, e, o);
    case PinEntered(_, _) => DueOfPayments(d, s, e, o);
    case PinReady(_, _, _) => DueOfPayments(d, s, e, o);
    case CardDetected(_, _, _) => DueOfCards(d, s, e, o);
    case CardAnswer(_, _, _) => DueOfCards(d, s, e, o);
    case TransactionAnswer(_, _, _) => DueOfAnswers(d, s, e, o);
    case PayConfirm(_, _, _) => DueOfSettlements(d, s, e, o);
    case CancelTouch(_, _, _) => DueOfSettlements(d, s, e, o);
    case ConfirmAnswer(_, _) => DueOfSettlements(d, s, e, o);
    case CancelAnswer(_, _) => DueOfSettlements(d, s, e, o);
    case _ => DueOfOthers(d, s, e, o);
  }

  // ------------------------------------------- card, PIN and pending payment

  /** The event makes the object forget card and PIN. */
  predicate Clears(d: Devices, s: State, e: Event) {
    || e.ClearCardData?
    || (Failure(d, s, e).Some? && ReactsWithClear(Failure(d, s, e).value))
    || (e.CardAnswer? && e.reply.ResolveError?)
    || (e.BalanceAnswer? && e.balanceReply.BalanceError?)
    || (Looks(s, e) && e.readable && d.controller && s.card.number == "" && !e.dispenserChosen)
  }

  /** The event ends the pending payment, if there is one. */
  predicate Finishes(d: Devices, s: State, e: Event) {
    || Clears(d, s, e)
    || e.ConfirmAnswer?
    || (e.CancelAnswer? && !e.error)
    || (e.TransactionAnswer? && e.transactionReply.Refused?)
  }

  function AskedKind(e: Event): Option<nat> {
    match e
    case TransactionAnswer(_, PinRequired(kind), _) => kind
    case BalanceAnswer(BalancePinRequired(kind)) => kind
    case _ => None
  }

  /** Without a pin pad the PIN is awaited from the display; a PIN that came, or a request that failed, ends this. */
  function AwaitsPin(d: Devices, s: State, e: Event): bool {
    if e.TransactionAnswer? && AskedKind(e).Some? then !d.pinpad || (e.sent && s.waitingPin)
    else s.waitingPin && !e.PinReady? && (e.PinEntered? ==> s.waitingPinForBalance)
  }

  function AwaitsBalancePin(d: Devices, s: State, e: Event): bool {
    if e.BalanceAnswer? && (AskedKind(e).Some? || e.balanceReply.BalanceInvalidPin?)
    then e.balanceReply.BalanceInvalidPin? || !d.pinpad || s.waitingPinForBalance
    else s.waitingPinForBalance && !e.PinEntered? &&
         (e.TransactionAnswer? && AskedKind(e).Some? ==> !d.pinpad || e.sent)
  }

  predicate HoldsCard(d: Devices, s: State, e: Event, t: State) {
    && t.card == (if Clears(d, s, e) then CardNow(s, e).(number := "", data := []) else CardNow(s, e))
    && t.pin == (if Clears(d, s, e) then [] else PinNow(s, e))
    && t.cardResolved == (!Clears(d, s, e) && (s.cardResolved || (e.CardAnswer? && e.reply.Resolved?)))
  }

  predicate HoldsFlags(d: Devices, s: State, e: Event, t: State) {
    && t.pending.active == (PendingNow(s, e).active && !Finishes(d, s, e))
    && t.pinType == (if AskedKind(e).Some? then AskedKind(e).value else s.pinType)
    && t.waitingPin == AwaitsPin(d, s, e)
    && t.waitingPinForBalance == AwaitsBalancePin(d, s, e)
  }

  /** A failure that clears leaves just the card's reader; one that does not leaves everything. */
  lemma FailureState(s: State, order: OrderId, r: Reason)
    ensures ReportFailure(s, order, r) ==
            if ReactsWithClear(r)
            then s.(cardResolved := false, card := s.card.(number := "", data := []), pin := [],
                    pending := s.pending.(active := false), trace := s.trace + [PaymentResult(order, false, 0, r)])
            else s.(trace := s.trace + [PaymentResult(order, false, 0, r)])
  {
  }

  lemma SendState(s: State, order: OrderId, payment: Payment, sent: bool)
    ensures var t := SendTransaction(s, order, payment, sent);
            t == if sent then s.(trace := t.trace)
                 else s.(cardResolved := false, card := s.card.(number := "", data := []), pin := [],
                         pending := s.pending.(active := false), trace := t.trace)
  {
    hide ReportFailure;
    FailureState(s, order, SendError);
  }

  lemma PaymentKeepsCard(d: Devices, s: State, e: Event)
    requires e.PayTransaction?
    ensures HoldsCard(d, s, e, Step(d, s, e))
  {
    hide ReportFailure, SendTransaction;
    if e.payload.None? {
      FailureState(s, e.order, DeserializeError);
    } else {
      SendState(s.(pending := PendingNow(s, e)), e.order, e.payload.value, e.sent);
    }
  }

  lemma PaymentKeepsFlags(d: Devices, s: State, e: Event)
    requires e.PayTransaction?
    ensures HoldsFlags(d, s, e, Step(d, s, e))
  {
    hide ReportFailure, SendTransaction;
    if e.payload.None? {
      FailureState(s, e.order, DeserializeError);
    } else {
      SendState(s.(pending := PendingNow(s, e)), e.order, e.payload.value, e.sent);
    }
  }

  lemma PinKeepsCard(d: Devices, s: State, e: Event)
    requires e.PinEntered? || e.PinReady?
    ensures HoldsCard(d, s, e, Step(d, s, e))
  {
    hide ReportFailure, SendTransaction;
    var p := s.pending;
    if e.PinEntered? {
      SendState(s.(pin := e.pin, waitingPin := false), p.order, p.payment, e.sent);
    } else {
      SendState(s.(pin := e.read, waitingPin := false), p.order, p.payment, e.sent);
      FailureState(s.(pin := e.read), p.order, PinReadError);
    }
  }

  lemma PinKeepsFlags(d: Devices, s: State, e: Event)
    requires e.PinEntered? || e.PinReady?
    ensures HoldsFlags(d, s, e, Step(d, s, e))
  {
    hide ReportFailure, SendTransaction;
    var p := s.pending;
    if e.PinEntered? {
      SendState(s.(pin := e.pin, waitingPin := false), p.order, p.payment, e.sent);
    } else {
      SendState(s.(pin := e.read, waitingPin := false), p.order, p.payment, e.sent);
      FailureState(s.(pin := e.read), p.order, PinReadError);
    }
  }

  lemma CardClears(d: Devices, s: State, e: Event)
    requires e.CardAnswer?
    ensures Clears(d, s, e) <==> e.reply.ResolveError? || (e.reply.Resolved? && s.pending.active && !e.sent)
    ensures Finishes(d, s, e) <==> Clears(d, s, e)
  {
  }

  lemma AnswerClears(d: Devices, s: State, e: Event)
    requires e.TransactionAnswer? && !e.transactionReply.PinRequired?
    ensures Clears(d, s, e) <==>
            match e.transactionReply
            case Success(_, _) => false
            case InvalidPin(r) => ReactsWithClear(r)
            case GenericError(r) => ReactsWithClear(r)
            case Refused(r) => ReactsWithClear(r)
            case _ => true
    ensures Finishes(d, s, e) <==> Clears(d, s, e) || e.transactionReply.Refused?
  {
  }

  lemma OtherClears(d: Devices, s: State, e: Event)
    requires e.ClearCardData? || e.GetBalance? || e.PrintDebit? || e.OtherMessage? || e.BalanceAnswer?
    ensures Clears(d, s, e) <==> e.ClearCardData? || (e.BalanceAnswer? && e.balanceReply.BalanceError?)
    ensures Finishes(d, s, e) <==> Clears(d, s, e)
  {
  }

  lemma SettlementClears(d: Devices, s: State, e: Event)
    requires e.PayConfirm? || e.CancelTouch? || e.ConfirmAnswer? || e.CancelAnswer?
    ensures !Clears(d, s, e)
    ensures Finishes(d, s, e) <==> e.ConfirmAnswer? || (e.CancelAnswer? && !e.error)
  {
  }

  /** A resolved card and what the attempt to pay leaves. */
  lemma ResolvedState(s: State, card: Card, balanceSent: bool, sent: bool)
    ensures var t := ResolveCard(s, Resolved(card), balanceSent, sent);
            var fails := s.pending.active && !sent;
            t == s.(cardResolved := !fails, resolving := false, resolves := t.resolves, pin := [], trace := t.trace,
                    card := if fails then card.(number := "", data := []) else card,
                    pending := s.pending.(active := s.pending.active && sent))
  {
    hide SendTransaction;
    var t := s.(resolving := false, resolves := if s.resolves > 0 then s.resolves - 1 else 0,
                card := card, cardResolved := true, pin := []);
    var u := AskForBalance(Emit(t, CardResolvedNote), balanceSent);
    SendState(u, s.pending.order, s.pending.payment, sent);
  }

  lemma UnresolvedState(s: State, reply: ResolveReply, balanceSent: bool, sent: bool)
    requires !reply.Resolved?
    ensures var t := ResolveCard(s, reply, balanceSent, sent);
            if reply.ResolveError?
            then t == s.(cardResolved := false, resolving := false, resolves := t.resolves, pin := [], trace := t.trace,
                         card := s.card.(number := "", data := []), pending := s.pending.(active := false))
            else t == s.(resolving := false, resolves := t.resolves, card := reply.partial)
  {
  }

  lemma CardKeepsCard(d: Devices, s: State, e: Event)
    requires e.CardAnswer?
    ensures HoldsCard(d, s, e, Step(d, s, e))
  {
    hide Clears, Finishes, Failure, Attempts, Accepted;
    CardClears(d, s, e);
    hide ResolveCard;
    if e.reply.Resolved? {
      ResolvedState(s, e.reply.card, e.balanceSent, e.sent);
    } else {
      UnresolvedState(s, e.reply, e.balanceSent, e.sent);
    }
  }

  lemma CardKeepsFlags(d: Devices, s: State, e: Event)
    requires e.CardAnswer?
    ensures HoldsFlags(d, s, e, Step(d, s, e))
  {
    hide Clears, Finishes, Failure, Attempts, Accepted;
    CardClears(d, s, e);
    hide ResolveCard;
    if e.reply.Resolved? {
      ResolvedState(s, e.reply.card, e.balanceSent, e.sent);
    } else {
      UnresolvedState(s, e.reply, e.balanceSent, e.sent);
    }
  }

  lemma DetectionKeepsCard(d: Devices, s: State, e: Event)
    requires e.CardDetected?
    ensures HoldsCard(d, s, e, Step(d, s, e))
  {
  }

  lemma DetectionKeepsFlags(d: Devices, s: State, e: Event)
    requires e.CardDetected?
    ensures HoldsFlags(d, s, e, Step(d, s, e))
  {
  }

  lemma AnswerKeepsCard(d: Devices, s: State, e: Event)
    requires e.TransactionAnswer? && !e.transactionReply.PinRequired?
    ensures HoldsCard(d, s, e, Step(d, s, e))
  {
    hide Clears, Finishes, Failure, Attempts, Accepted;
    AnswerClears(d, s, e);
    hide ReportFailure;
    match e.transactionReply
    case Success(_, _) =>
    case Error(code) => FailureState(s, e.order, TransactionError(code));
    case Unreadable => FailureState(s, e.order, ParseError);
    case InvalidPin(r) => FailureState(s, e.order, r);
    case GenericError(r) => FailureState(s, e.order, r);
    case Refused(r) => FailureState(s, e.order, r);
  }

  lemma AnswerKeepsFlags(d: Devices, s: State, e: Event)
    requires e.TransactionAnswer? && !e.transactionReply.PinRequired?
    ensures HoldsFlags(d, s, e, Step(d, s, e))
  {
    hide Clears, Finishes, Failure, Attempts, Accepted;
    AnswerClears(d, s, e);
    hide ReportFailure;
    match e.transactionReply
    case Success(_, _) =>
    case Error(code) => FailureState(s, e.order, TransactionError(code));
    case Unreadable => FailureState(s, e.order, ParseError);
    case InvalidPin(r) => FailureState(s, e.order, r);
    case GenericError(r) => FailureState(s, e.order, r);
    case Refused(r) => FailureState(s, e.order, r);
  }

  lemma PinAnswerKeepsCard(d: Devices, s: State, e: Event)
    requires e.TransactionAnswer? && e.transactionReply.PinRequired?
    ensures HoldsCard(d, s, e, Step(d, s, e))
  {
    hide ReportFailure;
    var kind := e.transactionReply.pinType;
    FailureState(s, e.order, PinTypeError);
    if kind.Some? {
      var t := s.(pinType := kind.value);
      FailureState(t.(waitingPin := true), e.order, NoPinpad);
      FailureState(t, e.order, PinRequestError);
    }
  }

  lemma PinAnswerKeepsFlags(d: Devices, s: State, e: Event)
    requires e.TransactionAnswer? && e.transactionReply.PinRequired?
    ensures HoldsFlags(d, s, e, Step(d, s, e))
  {
    hide ReportFailure;
    var kind := e.transactionReply.pinType;
    FailureState(s, e.order, PinTypeError);
    if kind.Some? {
      var t := s.(pinType := kind.value);
      FailureState(t.(waitingPin := true), e.order, NoPinpad);
      FailureState(t, e.order, PinRequestError);
    }
  }

  lemma OtherKeepsCard(d: Devices, s: State, e: Event)
    requires e.ClearCardData? || e.GetBalance? || e.PrintDebit? || e.OtherMessage? || e.BalanceAnswer?
    ensures HoldsCard(d, s, e, Step(d, s, e))
  {
    hide Clears, Finishes, Failure, Attempts, Accepted;
    OtherClears(d, s, e);
  }

  lemma OtherKeepsFlags(d: Devices, s: State, e: Event)
    requires e.ClearCardData? || e.GetBalance? || e.PrintDebit? || e.OtherMessage? || e.BalanceAnswer?
    ensures HoldsFlags(d, s, e, Step(d, s, e))
  {
    hide Clears, Finishes, Failure, Attempts, Accepted;
    OtherClears(d, s, e);
  }

  lemma SettlementKeepsCard(d: Devices, s: State, e: Event)
    requires e.PayConfirm? || e.CancelTouch? || e.ConfirmAnswer? || e.CancelAnswer?
    ensures HoldsCard(d, s, e, Step(d, s, e))
  {
    hide Clears, Finishes, Failure, Attempts, Accepted;
    SettlementClears(d, s, e);
  }

  lemma SettlementKeepsFlags(d: Devices, s: State, e: Event)
    requires e.PayConfirm? || e.CancelTouch? || e.ConfirmAnswer? || e.CancelAnswer?
    ensures HoldsFlags(d, s, e, Step(d, s, e))
  {
    hide Clears, Finishes, Failure, Attempts, Accepted;
    SettlementClears(d, s, e);
  }

  /** What every step leaves of card, PIN, pending payment and flags: a card is held from its reading until something
      clears it, and so is a PIN. */
  lemma StepHolds(d: Devices, s: State, e: Event)
    ensures HoldsCard(d, s, e, Step(d, s, e)) && HoldsFlags(d, s, e, Step(d, s, e))
  {
    hide Step, HoldsCard, HoldsFlags;
    match e
    case PayTransaction(_, _, _, _) => PaymentKeepsCard(d, s, e); PaymentKeepsFlags(d, s, e);
    case PinEntered(_, _) => PinKeepsCard(d, s, e); PinKeepsFlags(d, s, e);
    case PinReady(_, _, _) => PinKeepsCard(d, s, e); PinKeepsFlags(d, s, e);
    case CardDetected(_, _, _) => DetectionKeepsCard(d, s, e); DetectionKeepsFlags(d, s, e);
    case CardAnswer(_, _, _) => CardKeepsCard(d, s, e); CardKeepsFlags(d, s, e);
    case TransactionAnswer(_, reply, _) =>
      if reply.PinRequired? {
        PinAnswerKeepsCard(d, s, e);
        PinAnswerKeepsFlags(d, s, e);
      } else {
        AnswerKeepsCard(d, s, e);
        AnswerKeepsFlags(d, s, e);
      }
    case PayConfirm(_, _, _) => SettlementKeepsCard(d, s, e); SettlementKeepsFlags(d, s, e);
    case CancelTouch(_, _, _) => SettlementKeepsCard(d, s, e); SettlementKeepsFlags(d, s, e);
    case ConfirmAnswer(_, _) => SettlementKeepsCard(d, s, e); SettlementKeepsFlags(d, s, e);
    case CancelAnswer(_, _) => SettlementKeepsCard(d, s, e); SettlementKeepsFlags(d, s, e);
    case _ => OtherKeepsCard(d, s, e); OtherKeepsFlags(d, s, e);
  }

  function PinGiven(e: Event): Option<Bytes> {
    if e.CardAnswer? && e.reply.Resolved? then Some([])
    else if e.PinEntered? then Some(e.pin)
    else if e.PinReady? then Some(e.read) else None
  }

  /** The PIN of the latest event that gave one, unless something cleared it since. */
  ghost function LatestPin(d: Devices, events: seq<Event>): Bytes {
    if events == [] then []
    else
      var before, e := events[..|events| - 1], events[|events| - 1];
      if Clears(d, After(d, before), e) then []
      else if PinGiven(e).Some? then PinGiven(e).value else LatestPin(d, before)
  }

  lemma {:induction false} PinIsLatest(d: Devices, events: seq<Event>)
    ensures After(d, events).pin == LatestPin(d, events)
  {
    if events != [] {
      var before, e := events[..|events| - 1], events[|events| - 1];
      PinIsLatest(d, before);
      StepHolds(d, After(d, before), e);
      hide Step, Clears;
    }
  }

  /** A PIN typed on the display is the PIN of the frame it resumes: of the balance query when one waits for it, and
      else of the pending payment when a card is resolved. */
  lemma TypedPinIsSent(d: Devices, s: State, pin: Bytes)
    ensures var p := s.pending;
            Added(d, s, PinEntered(pin, true)) ==
            if s.waitingPinForBalance then [BalanceFrame(s.card, pin)]
            else if p.active && s.cardResolved then [TransactionFrame(p.order, s.card, pin, p.time, p.payment)] else []
  {
    hide Step;
    StepIssues(d, s, PinEntered(pin, true));
  }

  // ------------------------------------------------------------ cancellations

  /** The order that a cancellation concerns, told by the events: the one it names, or the latest requested one while
      its payment is pending. */
  function CancelledBy(events: seq<Event>, order: OrderId, payload: Option<Payment>, pending: bool):
      Option<(OrderId, Payment)>
  {
    if payload.Some? then Some((order, payload.value))
    else if pending && LatestRequest(events).Some?
    then Some((LatestRequest(events).value.order, LatestRequest(events).value.payment)) else None
  }

  lemma PendingWasRequested(d: Devices, events: seq<Event>)
    ensures After(d, events).pending.active ==> LatestRequest(events).Some?
  {
    PendingIsLatest(d, events);
    hide After, LatestRequest;
  }

  /** The card that was held at the latest success of the order, when this success is unsettled. */
  ghost function SuccessCard(d: Devices, events: seq<Event>, order: OrderId): (string, Bytes) {
    if events == [] then ("", [])
    else
      var before := events[..|events| - 1];
      match events[|events| - 1]
      case TransactionAnswer(o, Success(_, _), _) =>
        if o == order then (After(d, before).card.number, After(d, before).card.data) else SuccessCard(d, before, order)
      case _ => SuccessCard(d, before, order)
  }

  lemma {:induction false} StoredCardIsSuccessCard(d: Devices, events: seq<Event>, order: OrderId)
    ensures var m := After(d, events).transactions;
            order in m ==> (m[order].number, m[order].data) == SuccessCard(d, events, order)
  {
    if events != [] {
      var before := events[..|events| - 1];
      StoredCardIsSuccessCard(d, before, order);
      StepTransactions(d, After(d, before), events[|events| - 1]);
      hide Step;
    }
  }

  /** A cancellation is passed on exactly when the order it concerns has an unsettled success, and then as one frame
      with the card held at this success, its id and time, and the amounts of the cancellation or the pending
      payment. */
  lemma CancelPassedOnIff(d: Devices, events: seq<Event>, order: OrderId, payload: Option<Payment>)
    ensures var s := After(d, events);
            var added := Added(d, s, CancelTouch(order, payload, true));
            var cancelled := CancelledBy(events, order, payload, s.pending.active);
            if cancelled.None? || Unsettled(events, cancelled.value.0).None? then added == []
            else
              var (id, time) := Unsettled(events, cancelled.value.0).value;
              var (number, data) := SuccessCard(d, events, cancelled.value.0);
              added == [CancelFrame(cancelled.value.0, Card(s.card.reader, s.card.api, number, data), id, time,
                                    cancelled.value.1)]
  {
    hide After, Step, Unsettled, LatestRequest, SuccessCard;
    var s := After(d, events);
    PendingIsLatest(d, events);
    PendingWasRequested(d, events);
    StepIssues(d, s, CancelTouch(order, payload, true));
    var cancelled := CancelledBy(events, order, payload, s.pending.active);
    if cancelled.Some? {
      TransactionsAreUnsettled(d, events, cancelled.value.0);
      StoredCardIsSuccessCard(d, events, cancelled.value.0);
    }
  }

  /** The same for a confirmation. */
  lemma ConfirmCarriesSuccessCard(d: Devices, events: seq<Event>, order: OrderId, payload: Option<Payment>)
    requires Unsettled(events, order).Some?
    ensures var s := After(d, events);
            var (id, time) := Unsettled(events, order).value;
            var (number, data) := SuccessCard(d, events, order);
            Added(d, s, PayConfirm(order, payload, true)) ==
            [ConfirmFrame(order, Card(s.card.reader, s.card.api, number, data), id, time,
                          if payload.Some? then payload.value else NO_PAYMENT)]
  {
    hide After, Step, Unsettled, SuccessCard;
    StepIssues(d, After(d, events), PayConfirm(order, payload, true));
    TransactionsAreUnsettled(d, events, order);
    StoredCardIsSuccessCard(d, events, order);
  }

  function Cancels(trace: seq<Output>, order: OrderId): nat {
    if trace == [] then 0
    else Cancels(trace[..|trace| - 1], order) +
         var o := trace[|trace| - 1]; if o.CancelFrame? && o.order == order then 1 else 0
  }

  /** The event is a cancellation for the order that reaches the terminal's node and finds an unsettled success. */
  ghost predicate CancelPassed(d: Devices, before: seq<Event>, e: Event, order: OrderId) {
    e.CancelTouch? && e.sent && Unsettled(before, order).Some? &&
    var cancelled := CancelledBy(before, e.order, e.payload, After(d, before).pending.active);
    cancelled.Some? && cancelled.value.0 == order
  }

  ghost function CancelsPassed(d: Devices, events: seq<Event>, order: OrderId): nat {
    if events == [] then 0
    else
      var before := events[..|events| - 1];
      CancelsPassed(d, before, order) + if CancelPassed(d, before, events[|events| - 1], order) then 1 else 0
  }

  lemma {:induction false} CancelsOf(a: seq<Output>, b: seq<Output>, order: OrderId)
    requires |b| <= 1 || forall o <- b :: !o.CancelFrame?
    ensures Cancels(a + b, order) ==
            Cancels(a, order) + if |b| == 1 && b[0].CancelFrame? && b[0].order == order then 1 else 0
    decreases |b|
  {
    if b == [] {
      assert a + b == a;
    } else {
      var less := b[..|b| - 1];
      assert (a + b)[..|a + b| - 1] == a + less;
      assert forall o <- less :: o in b;
      assert b[|b| - 1] in b;
      CancelsOf(a, less, order);
    }
  }

  lemma NoOtherCancels(d: Devices, s: State, e: Event)
    requires !e.CancelTouch?
    ensures forall o <- Added(d, s, e) :: !o.CancelFrame?
  {
    hide Step;
    StepIssues(d, s, e);
  }

  /** Exactly the cancellations that find an unsettled success become PAY_CANCEL frames, one each. */
  lemma {:induction false} CancelsArePassedOn(d: Devices, events: seq<Event>, order: OrderId)
    ensures Cancels(After(d, events).trace, order) == CancelsPassed(d, events, order)
  {
    if events != [] {
      hide Step, Added, Unsettled, SuccessCard, CancelledBy;
      var before, e := events[..|events| - 1], events[|events| - 1];
      var s := After(d, before);
      CancelsArePassedOn(d, before, order);
      TraceGrows(d, s, e);
      if e.CancelTouch? {
        if e.sent {
          CancelPassedOnIff(d, before, e.order, e.payload);
        } else {
          NotSentNotAdded(d, s, e);
        }
      } else {
        NoOtherCancels(d, s, e);
      }
      CancelsOf(s.trace, Added(d, s, e), order);
    }
  }

  lemma NotSentNotAdded(d: Devices, s: State, e: Event)
    requires e.CancelTouch? && !e.sent
    ensures Added(d, s, e) == []
  {
    hide Step;
    StepIssues(d, s, e);
  }
}
