# Verified model of the self-service fuel terminal

The program runs a fuel terminal: a touch display on a serial line, a fuel controller behind HTTP, a card and
payment terminal, and a core that carries messages between them. This project models its logic and protocols in
Dafny and proves what they keep over every run, or for every input.

* **Orders and reports** (`PrimeModel`, `PrimeRuns`, `PrimeTheorems`, `PrimeCauses`, `PrimeReturns`,
  `PrimeService`, `PrimeReports`, `PrimeBystanders`, `PrimeStored`, `PrimeWitnesses`, `PrimeLogic`).
  Orders per dispenser, payment and confirmation, the two-flag authorize handshake, the rendezvous of finalizing and
  closing an order, the task queue of every level gauge, and the ledger of pending sales. A handler is one step on a
  state whose history records commands and marks such as "sale opened". `PrimeLogic.PrimeLogic` is the object with
  its fields; each of its methods takes exactly the step of the model.
* **Payment terminal** (`ArkaimLogic`, `ArkaimCauses`). The pending payment, the stored transactions, cards and PINs;
  model and object in one module, and what every frame and result is due to in the other. `Payments` puts the two logics together.
* **Display protocol** (`DwinParser`, `DwinCommands`). The resynchronising decoder, the frame encoder, and the payloads
  of text and number fields.
* **Serial writer and core queue** (`SerialTransport`, `MessageLayer`). One outstanding operation, bursts of 64 bytes,
  one FIFO for all channels.
* **Decimal texts and the pin pad** (`Decimal`, `PinPad`). From key presses to the order request, and from a value of
  the controller to the digits on the glass.
* **HTTP framing** (`HttpFraming`), **page timers** (`PageTimers`), **shared prepared statements** (`Statement`).

`PrimeModel.After`, `ArkaimLogic.After` and so on give the state after any sequence of events; the events of the
environment (device events, polls, answers, touches, timer and write completions) come in any order the outside
allows. Outcomes that the program cannot choose, such as whether the terminal accepts a frame or what a read past the
end of a buffer finds, are parameters of the events.

Several promises hold only under a condition. They are stated as equivalences:

* A cut in the byte stream is invisible exactly when no packet has LEN = 0; such a packet makes the decoder read the
  byte behind it (`DwinParser.CutsAreInvisibleIff`, and `DwinParser.TwoCalls` for one cut).
* A frame decodes to its one message, whatever follows, exactly for the commands other than sound and brightness that
  the encoder accepts and that write at most 252 data bytes (`DwinParser.AlwaysDecodesIff`).
* The order request denotes the typed number exactly when its digits are below 65536, because the volume passes through
  a 16-bit parameter (`PinPad.RequestDenotesEntryIff`).
* Reading back a formatted value fails from 2^31 on, and for the text "0" unless it has two decimals
  (`Decimal.FormattedReadsBackIff`); the two formatters differ on zero (`Decimal.FormattersAgreeIff`).
* The writer's busy flag means an outstanding operation exactly until a throttle timer is lost
  (`SerialTransport.BusyMeansOutstandingIff`); after that nothing is ever written
  (`SerialTransport.NothingWrittenAfterLostTimer`), and stopping the transport between two bursts leads there
  (`SerialTransport.LostTimerRun`). Packets wait for an idle writer exactly when the run ends in an
  aborted write (`SerialTransport.QueuedMeansBusyIff`).
* The card resolver's busy flag means an outstanding request exactly in the runs without a tap whose request could not
  be sent (`ArkaimLogic.ResolvingMeansOutstandingIff`).
* Every payment of a run goes out with a resolved card exactly when no complete PIN comes from the pin pad while a
  payment is pending without a card (`ArkaimLogic.PaysWithCardIff`); `ArkaimLogic.LatePinPaysWithoutCard` is such a run.
* Confirmations stay within the creations of their order in every run exactly for a non-empty id
  (`PrimeTheorems.ConfirmationsBoundedIff`).
* The sale of the task queued last at a gauge is reported exactly when no other sale's last task waits before it,
  because a report throws away the rest of the queue (`PrimeReports.LastIsReportedIff`). This holds for the gauge's
  answers to all its tasks, with anything in between that leaves the waiting orders alone: that neither opens, drops
  nor reports their sales elsewhere, nor queues further tasks for them. `PrimeBystanders.BystandersLeaveAlone` says
  of the events alone which ones do so. In the same way a first reading is lost
  (`PrimeReports.AuthorizedOrderIsReadIff`). Two customers whose fuellings end one after the other, before the gauge
  answers, lose the second sale (`PrimeWitnesses.LostSaleRun`); one who begins while another's sale waits loses the
  reading (`PrimeWitnesses.LostReadingRun`).
* An order is reported twice exactly when, behind a report, an event asks for its sale once more and a report follows
  (`PrimeReports.ReportedTwiceIff`); a poll that still shows the order and one more move of the pistol do it
  (`PrimeWitnesses.ReportedTwiceRun`).
* An order created once gets its PAY_CONFIRM frame exactly when its confirmation request finds the success unsettled
  (`Payments.ConfirmedIff`). One that a poll first shows when it has ended is paid and never confirmed, because the
  confirmation is sent before the payment (`Payments.FirstSeenEndedIsNeverConfirmed`, `Payments.LatePollRun`).
* A return of the pistol is noticed exactly by an idle event that is the first report after COMPLETE or FUELLING
  (`PrimeReturns.ReturnNoticedIff`); a poll that comes first hides it (`PrimeReturns.PollHidesReturn`).
* An order's last gauge task is queued exactly once unless the pistol returns again after both closing and finalizing
  (`PrimeTheorems.ExactlyOneLastTaskIff`), and it names the order exactly when no return fell between a loading of the
  devices and the next poll of the order (`PrimeTheorems.LastTasksOwnIff`). While the devices are loaded once it always
  does (`PrimeReturns.LoadedOnceOneOwnTask`). The devices are loaded again when the payment terminal reports its devices
  once more: `onGetApiList` announces the terminal on every such answer (src/logic/ArkaimLogic.cpp:276-284), and the
  order logic then asks for the device list (src/logic/PrimeLogic.cpp:90-99, 157-162). It depends on the terminal's
  library, which is not part of this model, whether a reconnection calls the connect handler again.
* The counter of a shared statement is right exactly while its 32 bits can tell the holders
  (`Statement.AlwaysSharedIff`).

One more result about the code: a status event goes through two handlers, and the first one always leaves the second
nothing to do but to store the status once more (`PrimeCauses.SecondHandlerOnlyShiftsStatus`). The second one's branches
for a finished fuelling, which clear the card and leave the dispenser, are never taken.

## Model

| member | source | states |
|---|---|---|
| PrimeTheorems.PaidAtMostOnce | src/logic/PrimeLogic.cpp:861-895 | over every run PAY_TRANSACTION is sent at most once per order id, never for the empty id, and exactly for the ids remembered as paid |
| PrimeTheorems.ConfirmedAtMostOncePerCreation | src/logic/PrimeLogic.cpp:1508-1634 | over every run a non-empty id is confirmed no more often than orders with it were created; with fresh ids at most once |
| PrimeTheorems.NamelessPollConfirms | src/logic/PrimeLogic.cpp:1778-1843 | a polled delivered order without an id is confirmed on a dispenser that never had an order |
| PrimeTheorems.ConfirmationsBoundedIff | src/logic/PrimeLogic.cpp:1508-1634 | that bound holds in every run if and only if the id is not empty |
| PrimeTheorems.NamelessRun | src/logic/PrimeLogic.cpp:1778-1843 | a run from the start, with products loaded, that confirms the empty id twice without any creation |
| PrimeTheorems.EmptyIdsConfirmTwice | src/logic/PrimeLogic.cpp:1508-1634 | from any state, polls of two dispensers without orders confirm the empty id twice and create nothing |
| PrimeTheorems.SalesAreConserved | src/logic/PrimeLogic.cpp:541-548 | conservation over every run: sales opened are those reported, those dropped by a failed payment, and the one still pending |
| PrimeTheorems.TasksAreServedInOrder | src/logic/PrimeLogic.cpp:1902-1995 | over every run what was queued for a gauge is what was taken, in order, followed by the queue |
| PrimeTheorems.LastTasksCounted | src/logic/PrimeLogic.cpp:1624-1629 | over every run the exact number of last tasks queued by closing and finalizing the current order, by the returns seen before and after finalization |
| PrimeTheorems.ExactlyOneLastTaskIff | src/logic/PrimeLogic.cpp:1213-1229 | one last task once both happened and none before, if and only if no return followed both |
| PrimeTheorems.OneReturnOneLastTask | src/logic/PrimeLogic.cpp:1508-1634 | with at most one return, whichever comes first, exactly one last task; it carries the order's id exactly when the return was no stray one |
| PrimeTheorems.LastTasksOwnIff | src/logic/PrimeLogic.cpp:1218-1225 | over every run, all last tasks of an order carry its id if and only if no return after finalization came between a loading of devices and the next poll of the order |
| PrimeTheorems.StrayReturnQueuesNamelessTask | src/logic/PrimeLogic.cpp:1997-2030 | behind any run with a finalized order, loading the devices, fuelling and return queue a task without an order id |
| PrimeTheorems.StrayRun | src/logic/PrimeLogic.cpp:1213-1229 | a run from the start, with products loaded, that reaches this when the devices are loaded a second time |
| PrimeCauses.SecondHandlerOnlyShiftsStatus | src/logic/PrimeLogic.cpp:1344-1410 | of a status event that goes through both handlers, the second changes nothing but the previous status: no command, task, receipt or change of the chosen dispenser |
| PrimeReturns.StoredStatusIsLastSeen | src/logic/PrimeLogic.cpp:1767-1777 | in every run the stored status of a dispenser is the one last reported by an event or a poll since the devices were loaded |
| PrimeReturns.ReturnNoticedIff | src/logic/PrimeLogic.cpp:1213-1229 | in every run a return is noticed exactly by an idle event right after a report of COMPLETE or FUELLING |
| PrimeReturns.PollHidesReturn | src/logic/PrimeLogic.cpp:1767-1777 | when a poll is the first to see the dispenser idle, the idle event that comes any time later closes nothing and queues no last task, even for an order the poll finalized |
| PrimeReturns.LoadedOnceOneOwnTask | src/logic/PrimeLogic.cpp:1508-1634 | while the devices are loaded once, every last task carries its order's id, and with at most one return there is exactly one as soon as the order is finalized and closed |
| PrimeTheorems.HandshakeInEveryRun | src/logic/PrimeLogic.cpp:1636-1654 | every AUTHORIZE comes at once when a creation and a touch have happened since the previous one; the flags tell just this and are never both set between steps |
| PrimeTheorems.AuthorizationsAreBounded | src/logic/PrimeLogic.cpp:1636-1654 | no more AUTHORIZE commands than creations, nor than touches |
| PrimeTheorems.AuthorizationsAreMaximal | src/logic/PrimeLogic.cpp:1636-1654 | the number of AUTHORIZE commands is the greatest number of parts, each with a creation and a touch, into which the history can be cut |
| PrimeRuns.StepKeeps | src/logic/PrimeLogic.cpp:1162-1183 | every handler keeps payments, confirmations, ledger, flags, queues and rendezvous in step with the history |
| PrimeRuns.RunsKeepInv | src/logic/PrimeLogic.cpp:1162-1183 | that invariant holds in every run for every order, dispenser and gauge |
| PrimeCauses.IssuedIffCause | src/logic/PrimeLogic.cpp:1736-1900 | a step issues a given command to the controller, message to another layer or history mark if and only if its stated cause held before the step: each kind of output has its cause |
| PrimeCauses.EveryOutputIsCaused | src/logic/PrimeLogic.cpp:1508-1634 | every output of a step has its cause; "not complete" exactly for an interrupted order |
| PrimeCauses.CauseInRun | src/logic/PrimeLogic.cpp:1736-1900 | every output of a run has a step and a cause in the state before it |
| PrimeReports.AnswersReportFirst | src/logic/PrimeLogic.cpp:1902-1995 | when all tasks of a gauge are answered, exactly the first reportable sale has been reported and left the ledger |
| PrimeService.OthersOnlyQueueMore | src/logic/PrimeLogic.cpp:1935-1991 | only its own answers take tasks from a gauge's queue |
| PrimeService.ServedInAnyInterleaving | src/logic/PrimeLogic.cpp:1902-1995 | whatever happens between the answers without touching the waiting orders, the tasks left and the one sale reported depend on the number of answers only |
| PrimeReports.LastIsReportedIff | src/logic/PrimeLogic.cpp:1935-1991 | the sale of the last queued task gets reported if and only if no other sale is reported before it: then exactly once, else never, in every such interleaving |
| PrimeReports.CancelledIsRevertedIff | src/logic/PrimeLogic.cpp:454-521 | cancelling settles the sale as reverted, refunds, revokes, closes and clears, and the sale gets reported so exactly when the way is free |
| PrimeReports.ClosedThenFinalizedIsReportedIff | src/logic/PrimeLogic.cpp:1508-1634 | finalizing after the return settles the sale in full, or in part when interrupted, and it gets reported so exactly when the way is free |
| PrimeReports.FinalizedThenClosedIsReportedIff | src/logic/PrimeLogic.cpp:1213-1229 | the return after finalization closes the order and gets the settled sale reported exactly when the way is free |
| PrimeReports.AuthorizedOrderIsReadIff | src/logic/PrimeLogic.cpp:1476-1502 | authorization opens the sale and queues the first reading behind any queue, and the reading comes to be served, in every such interleaving, if and only if no answer before it reports a sale |
| PrimeReports.ReportedTwiceIff | src/logic/PrimeLogic.cpp:1862-1878 | over every run, an order is reported twice if and only if, behind a report, some event asked for its sale once more and a report followed |
| PrimeBystanders.StepIds | src/logic/PrimeLogic.cpp:1785-1830 | a step makes a dispenser know no order but those it knew and one an event created for it |
| PrimeBystanders.StepSetting | src/logic/PrimeLogic.cpp:793-849 | which dispenser is chosen after every event, and that tankers and products only grow by what is loaded |
| PrimeStored.StepStored | src/logic/PrimeLogic.cpp:1767-1830 | what every event leaves of every order (id, status, product, closed, finalized) and every dispenser (status, product, reported order) |
| PrimeStored.SettingIsRead | src/logic/PrimeLogic.cpp:2082-2150 | in every run tankers and products are all those loaded, and the chosen dispenser is the last one chosen and not left |
| PrimeStored.ProductIsLastTold | src/logic/PrimeLogic.cpp:1779-1784 | in every run the product kept for a known dispenser is the one last told by an event or a poll |
| PrimeStored.FailedPaymentCloses | src/logic/PrimeLogic.cpp:2359-2363 | a payment that failed for good closes the order at the chosen dispenser, clears the card and drops the sale, in this order; other answers do none of it |
| PrimeBystanders.BystandersLeaveAlone | src/logic/PrimeLogic.cpp:1902-1995 | events about other dispensers, orders and gauges, told by looking at the events alone, leave the waiting orders alone behind every run |
| PrimeBystanders.ReportedAmongBystanders | src/logic/PrimeLogic.cpp:1935-1991 | so among such events the gauge's answers report the first reportable sale exactly once and no other waiting one |
| PrimeWitnesses.FuelsOrder | src/logic/PrimeLogic.cpp:1162-1234 | a whole fuelling, from choosing the dispenser to the pistol's return, settles the sale in full and queues its one last task behind the others |
| PrimeWitnesses.LostSaleRun | src/logic/PrimeLogic.cpp:1935-1991 | a run from the start in which the second of two sales is never reported |
| PrimeWitnesses.LostReadingRun | src/logic/PrimeLogic.cpp:1935-1991 | a run from the start in which an order's first reading is thrown away |
| PrimeWitnesses.ReportedTwiceRun | src/logic/PrimeLogic.cpp:1862-1878 | a run from the start that reports one order twice, the second time without a type |
| PrimeModel.RunsContinue | src/logic/PrimeLogic.cpp:1162-1183 | a message with several events continues the run by just these events |
| PrimeLogic.PrimeLogic.LevelGaugeIdByProductId | src/core/utility.cpp:307-317 | the loop finds the first gauge of the first tanker with the product that has gauges |
| PrimeLogic.PrimeLogic.AuthorizeOnServer | src/logic/PrimeLogic.cpp:1636-1654 | sends AUTHORIZE and clears both flags exactly when both are set |
| PrimeLogic.PrimeLogic.PrintDebetReceipt | src/logic/PrimeLogic.cpp:523-549 | prints the receipt and opens the sale of the chosen dispenser's order when its product is known |
| PrimeLogic.PrimeLogic.TouchBeginFuelling | src/logic/PrimeLogic.cpp:201-206 | the step of the begin touch |
| PrimeLogic.PrimeLogic.HandleDispenserOrderCreated | src/logic/PrimeLogic.cpp:1240-1253 | the step of an order-created event: flag, authorization, fresh order, status request |
| PrimeLogic.PrimeLogic.HandleRandomDispenserStatus | src/logic/PrimeLogic.cpp:1186-1238 | the step of a status event on any dispenser |
| PrimeLogic.PrimeLogic.HandleDispenserStatus | src/logic/PrimeLogic.cpp:1344-1410 | the step of a status event on the chosen dispenser |
| PrimeLogic.PrimeLogic.HandleDispenserOrderStatus | src/logic/PrimeLogic.cpp:1412-1506 | the step of an order-changed event |
| PrimeLogic.PrimeLogic.ProcessEvent | src/logic/PrimeLogic.cpp:1162-1183 | which handlers one event goes through, in order |
| PrimeLogic.PrimeLogic.ProcessEvents | src/logic/PrimeLogic.cpp:1162-1183 | the loop takes the steps of all events, in order |
| PrimeLogic.PrimeLogic.ProcessOrderFinalization | src/logic/PrimeLogic.cpp:1508-1634 | finalizes once: sale settled, last task when closed, confirmation |
| PrimeLogic.PrimeLogic.HandlePaymentResponse | src/logic/PrimeLogic.cpp:2310-2364 | which failures close the order and drop the sale |
| PrimeLogic.PrimeLogic.CreatePayment | src/logic/PrimeLogic.cpp:861-895 | asks for the payment once per id, with the failure that arrives during the call |
| PrimeLogic.PrimeLogic.ProcessPolledOrder | src/logic/PrimeLogic.cpp:1785-1887 | closes an unknown order; else stores, finalizes, opens the sale and pays |
| PrimeLogic.PrimeLogic.ProcessDispenserStatus | src/logic/PrimeLogic.cpp:1736-1900 | the step of a polled status |
| PrimeLogic.PrimeLogic.ProcessParameters | src/logic/PrimeLogic.cpp:1902-1995 | serves the head of the gauge's queue |
| PrimeLogic.PrimeLogic.HandleImmediatelyCancelTransaction | src/logic/PrimeLogic.cpp:454-521 | the step of the cancel touch |
| PrimeLogic.PrimeLogic.HandleChooseTRK | src/logic/PrimeLogic.cpp:793-849 | the step of choosing a dispenser |
| PrimeLogic.PrimeLogic.ProcessDevices | src/logic/PrimeLogic.cpp:1997-2030 | the loop forgets the dispensers, registers the listed ones and asks for their status |
| PrimeLogic.PrimeLogic.Handle | src/logic/PrimeLogic.cpp:201-280 | every event takes exactly its step |
| Payments.ConfirmFramesPerCreation | src/logic/ArkaimLogic.cpp:563-613 | both logics together: the terminal gets at most one PAY_CONFIRM frame for an order id per order created with it |
| Payments.OneAmountPerOrder | src/logic/ArkaimLogic.cpp:417-450 | all PAY_TRANSACTION frames for an order, retries included, carry the same amount and time, and none is for an empty id |
| Payments.ConfirmFramesAreDue | src/logic/ArkaimLogic.cpp:563-613 | every PAY_CONFIRM frame carries the id of its order's unsettled success and was asked for by the order logic |
| Payments.RequestedOnce | src/logic/PrimeLogic.cpp:870-894 | one event only requests an order's payment |
| Payments.ConfirmedIff | src/logic/ArkaimLogic.cpp:563-613 | an order created at most once gets its one PAY_CONFIRM frame if and only if its confirmation request reached the terminal's node while its success was unsettled |
| Payments.ConfirmedUnpaidIsLost | src/logic/ArkaimLogic.cpp:563-613 | a confirmation sent before the payment is requested never becomes a frame |
| Payments.FirstSeenEndedIsNeverConfirmed | src/logic/PrimeLogic.cpp:1850-1887 | an order created once that a poll first shows delivered or interrupted is never confirmed at the terminal, whatever else happens |
| Payments.LatePollRun | src/logic/PrimeLogic.cpp:1850-1887 | a run from the start whose next poll is of this kind |
| ArkaimLogic.TransactionsAreUnsettled | src/logic/ArkaimLogic.cpp:507-524 | over every run an order has a stored transaction exactly when its latest success, confirm answer or error-free cancel answer is a success, and the stored id is that success's |
| ArkaimLogic.PendingIsLatest | src/logic/ArkaimLogic.cpp:42-90 | the pending payment is always the latest one requested |
| ArkaimLogic.SettlementFramesCarryTheStoredId | src/logic/ArkaimLogic.cpp:563-669 | every PAY_CONFIRM or PAY_CANCEL frame of a run carries the unsettled success's id and time |
| ArkaimLogic.ConfirmPassedOnIff | src/logic/ArkaimLogic.cpp:563-613 | a confirmation request is passed on exactly when its order has an unsettled success, as one frame with its id and time |
| ArkaimLogic.PaymentFramesAreRequested | src/logic/ArkaimLogic.cpp:410-450 | every PAY_TRANSACTION frame is for the latest request, and with a resolved card unless the pin pad's event sent it |
| ArkaimLogic.PaysWithCardIff | src/logic/ArkaimLogic.cpp:802-827 | all payments of a run go out with a resolved card if and only if no complete PIN came from the pin pad while one was pending without a card |
| ArkaimLogic.StepPaysWithoutCardIff | src/logic/ArkaimLogic.cpp:410-450 | the same for one step, from any state |
| ArkaimLogic.LatePinPaysWithoutCard | src/logic/ArkaimLogic.cpp:802-827 | such a run, from the card at the reader on: the PIN asked for one payment arrives after the card was cleared and another payment requested, and pays that one |
| ArkaimLogic.ConfirmsAreAskedFor | src/logic/ArkaimLogic.cpp:563-613 | no more PAY_CONFIRM frames for an order than confirmation requests |
| ArkaimLogic.ConfirmsArePassedOn | src/logic/ArkaimLogic.cpp:563-613 | the number of PAY_CONFIRM frames for an order is the number of its confirmation requests that found an unsettled success |
| ArkaimCauses.IssuedIffDue | src/logic/ArkaimLogic.cpp:306-721 | a step issues a given frame, note, result or receipt if and only if it is due, with the card, PIN, amount, transaction id and time its cause names |
| ArkaimCauses.StepIssues | src/logic/ArkaimLogic.cpp:306-1014 | the outputs of every event, with their order and number |
| ArkaimCauses.StepHolds | src/logic/ArkaimLogic.cpp:1007-1014 | what every event leaves of card, PIN, the pending payment's activity and the waiting flags: they are held until something clears them |
| ArkaimCauses.PinIsLatest | src/logic/ArkaimLogic.cpp:723-827 | in every run the PIN is the one last given, unless something cleared it since |
| ArkaimCauses.TypedPinIsSent | src/logic/ArkaimLogic.cpp:723-734 | a typed PIN is the PIN of the frame it resumes |
| ArkaimCauses.CancelPassedOnIff | src/logic/ArkaimLogic.cpp:615-669 | in every run a cancellation is passed on exactly when the order it names, or the pending one, has an unsettled success, as one frame with the card held then, its id, time and amounts |
| ArkaimCauses.CancelsArePassedOn | src/logic/ArkaimLogic.cpp:615-669 | the number of PAY_CANCEL frames for an order is the number of cancellations that found an unsettled success |
| ArkaimCauses.ConfirmCarriesSuccessCard | src/logic/ArkaimLogic.cpp:563-613 | a confirmation frame carries the card held at the success it confirms |
| ArkaimLogic.ResolvingMeansOutstandingIff | src/logic/ArkaimLogic.cpp:306-408 | at most one resolve request is outstanding, and the flag means just this in exactly the runs without a lost tap |
| ArkaimLogic.CardsIgnoredAfterLostTap | src/logic/ArkaimLogic.cpp:306-360 | after a lost tap every later card is ignored |
| ArkaimLogic.Arkaim.HandlePayTransaction | src/logic/ArkaimLogic.cpp:42-90 | stores the request as pending and tries to send it |
| ArkaimLogic.Arkaim.TryProcessPendingPayment | src/logic/ArkaimLogic.cpp:410-415 | sends the pending payment only with a resolved card |
| ArkaimLogic.Arkaim.SendTransactionFrame | src/logic/ArkaimLogic.cpp:417-450 | the frame, or the failure that ends the pending payment |
| ArkaimLogic.Arkaim.HandleConfirm | src/logic/ArkaimLogic.cpp:563-613 | the confirmation frame with the stored card, id and time |
| ArkaimLogic.Arkaim.HandleCancel | src/logic/ArkaimLogic.cpp:615-669 | the cancellation frame, for the named or the pending order |
| ArkaimLogic.Arkaim.OnCardDetected | src/logic/ArkaimLogic.cpp:306-360 | when a card is looked at, and what is asked |
| ArkaimLogic.Arkaim.OnCardResolve | src/logic/ArkaimLogic.cpp:362-408 | the step of a resolve answer |
| ArkaimLogic.Arkaim.OnTransactionResponse | src/logic/ArkaimLogic.cpp:452-539 | the step of every kind of payment answer |
| ArkaimLogic.Arkaim.OnConfirmResponse | src/logic/ArkaimLogic.cpp:671-695 | a confirmation answer forgets the transaction, error or not |
| ArkaimLogic.Arkaim.OnCancelResponse | src/logic/ArkaimLogic.cpp:697-721 | a cancellation answer forgets it only without an error |
| ArkaimLogic.Arkaim.ProcessPaymentPinRequired | src/logic/ArkaimLogic.cpp:736-792 | the step of a payment that needs a PIN |
| ArkaimLogic.Arkaim.HandlePinEntered | src/logic/ArkaimLogic.cpp:723-734 | a PIN typed on the display resumes the balance query or the payment |
| ArkaimLogic.Arkaim.OnPinReady | src/logic/ArkaimLogic.cpp:802-827 | a PIN from the pin pad resumes the payment; a failed read ends it but leaves what was read |
| ArkaimLogic.Arkaim.OnGetBalanceResponse | src/logic/ArkaimLogic.cpp:952-1005 | the step of every kind of balance answer |
| ArkaimLogic.Arkaim.ResetCardState | src/logic/ArkaimLogic.cpp:1007-1014 | forgets card, PIN and the activity of the pending payment |
| ArkaimLogic.Arkaim.Handle | src/logic/ArkaimLogic.cpp:42-90 | every event takes exactly its step |
| DwinParser.Parser.Parse | src/parser/DwinParser.cpp:23-90 | the loop over the buffer yields the messages and rest of the recursive decoder; under 258 bytes stay |
| DwinParser.RestIsShort | src/parser/DwinParser.cpp:30-40 | the carried bytes hold no complete packet and are fewer than 258 |
| DwinParser.TwoCalls | src/parser/DwinParser.cpp:23-90 | the exact condition under which one cut cannot be told from the result |
| DwinParser.CutsAreInvisibleIff | src/parser/DwinParser.cpp:42-53 | no cut and no out-of-range read can be told, if and only if the stream has no LEN = 0 packet |
| DwinParser.ChunkInvariance | src/parser/DwinParser.cpp:23-90 | any sequence of calls on a stream without LEN = 0 packets yields one decode of the whole |
| DwinParser.Serialize | src/parser/DwinParser.cpp:93-208 | the bytes of every command, empty for the rejected ones |
| DwinParser.LenIsHonestIff | src/parser/DwinParser.cpp:93-208 | LEN counts the bytes behind it exactly for commands other than sound and brightness with at most 252 data bytes |
| DwinParser.SkipNoise | src/parser/DwinParser.cpp:30-36 | bytes without a header pair do not disturb the frame behind them |
| DwinParser.RoundTrip | src/parser/DwinParser.cpp:93-163 | serialized commands with noise between them decode to exactly one message each, in order, with VP address and data |
| DwinParser.DecodePacket | src/parser/DwinParser.cpp:54-84 | every packet with a command byte decodes to its meaning in front of whatever follows: touched data, an acknowledged write, or the whole unknown packet |
| DwinParser.DecodeBarePacket | src/parser/DwinParser.cpp:42-53 | a LEN = 0 packet is taken as the byte behind it says, and carries nothing |
| DwinParser.DisplayIsUnderstood | src/parser/DwinParser.cpp:23-90 | any packets of the display with noise between them decode to one message each, in order, with their meaning |
| DwinParser.AlwaysDecodesIff | src/parser/DwinParser.cpp:93-208 | a command's frame decodes to its one message in front of whatever follows if and only if the command is no sound or brightness, is accepted, and has at most 252 data bytes |
| DwinParser.ShortFrameTakesNextByte | src/parser/DwinParser.cpp:165-204 | a sound or brightness frame with its three data bytes waits, or takes the next byte sent as its own |
| DwinParser.ShortFrameSwallowsNextFrame | src/parser/DwinParser.cpp:165-204 | so the frame behind it is lost |
| DwinParser.LongWriteIsCut | src/parser/DwinParser.cpp:149-163 | a longer write decodes to a first message with less than was written |
| DwinCommands.BuildRightAligned | include/bridge/dwin/DwinCommands.hpp:54-79 | the loops build the padded payload, or never finish when the text is longer than its field |
| DwinCommands.BuildLeftAligned | include/bridge/dwin/DwinCommands.hpp:27-52 | the loop builds the zero-filled payload of even length |
| DwinCommands.FieldShows | include/bridge/dwin/DwinCommands.hpp:54-79 | the serialized field, decoded, addresses its VP and shows the text |
| DwinCommands.FieldIsBuiltIff | include/bridge/dwin/DwinCommands.hpp:62-70 | a right-aligned field is built exactly when the text fits |
| DwinCommands.TextFieldShows | include/bridge/dwin/DwinCommands.hpp:27-52 | the serialized text field, decoded, addresses its VP and shows the text, or what the even field has room for |
| DwinCommands.ValueOnDisplay | src/logic/PrimeLogic.cpp:2301-2308 | a controller value, formatted, split, padded, serialized and decoded, shows integer and fraction fields that are its floor at the field's width |
| DwinCommands.ThreeFieldsRecombine | include/bridge/dwin/DwinCommands.hpp:132-170 | for a text with a comma, a dot or no mark, thousands, units and fraction fields recombine to the value, at most three digits stand in the units, the sign leads |
| SerialTransport.StepKeepsInv | src/transport/SerialTransport.cpp:76-148 | every call and callback keeps the writer's invariant |
| SerialTransport.After | src/transport/SerialTransport.cpp:89-148 | in every run at most one operation is outstanding, accepted packets are those gone plus those queued, the counter tells the burst, and a burst over 64 bytes carries one packet only |
| SerialTransport.BusyMeansOutstandingIff | src/transport/SerialTransport.cpp:76-115 | the busy flag means one outstanding operation in exactly the runs without a lost throttle timer |
| SerialTransport.QueuedMeansBusyIff | src/transport/SerialTransport.cpp:132-148 | a busy writer has packets queued, and packets wait for an idle one if and only if the run ends in an aborted write |
| SerialTransport.NothingWrittenAfterLostTimer | src/transport/SerialTransport.cpp:89-115 | in every continuation of a run with a lost timer no write starts and no packet leaves the queue |
| SerialTransport.LostTimerRun | src/transport/SerialTransport.cpp:53-74 | a run in which stopping the transport loses the timer, after which no continuation writes the waiting packet |
| SerialTransport.AllAcceptedIsWritten | src/transport/SerialTransport.cpp:132-148 | while no write fails, packets written followed by the queue are the packets accepted, in order |
| SerialTransport.AcceptedIsSent | src/transport/SerialTransport.cpp:76-87 | exactly the packets sent while started are accepted, once and in order |
| SerialTransport.BusyWriterDrains | src/transport/SerialTransport.cpp:89-148 | a busy writer whose operations succeed writes its whole queue in order and goes idle |
| SerialTransport.WrittenAtOnceIff | src/transport/SerialTransport.cpp:89-115 | behind a written packet the next one is written at once if and only if the burst is empty or it still fits in 64 bytes; else the timer is set; an empty queue ends the burst |
| SerialTransport.TimerStartsBurst | src/transport/SerialTransport.cpp:102-110 | the timer starts a new burst with the head packet |
| SerialTransport.ErrorsEndBurst | src/transport/SerialTransport.cpp:132-148 | an aborted write keeps the queue, any other error drops it as not written; both end the burst |
| SerialTransport.IdleHasNoBurst | src/transport/SerialTransport.cpp:76-130 | in every run an idle writer has no burst open, and what is being written is the head of the queue |
| SerialTransport.Writer.SendPacket | src/transport/SerialTransport.cpp:76-87 | queues the packet and starts writing when idle |
| SerialTransport.Writer.DoWrite | src/transport/SerialTransport.cpp:89-115 | writes, or throttles when the burst is full |
| SerialTransport.Writer.DoWriteImpl | src/transport/SerialTransport.cpp:117-130 | starts the head packet and counts its bytes |
| SerialTransport.Writer.HandleWrite | src/transport/SerialTransport.cpp:132-148 | the step of every outcome of a write |
| SerialTransport.Writer.HandleThrottleTimer | src/transport/SerialTransport.cpp:89-115 | the step of the timer, fired or cancelled |
| MessageLayer.FifoPerChannel | src/core/MessageLayer.cpp:25-67 | for every interleaving, what a channel had dispatched followed by what it has queued is what its parser produced |
| MessageLayer.DispatchedUartIsPrefix | src/core/MessageLayer.cpp:25-67 | the dispatched UART messages are a prefix of one decode of all UART bytes received |
| MessageLayer.HandlersGetTheirChannel | src/core/MessageLayer.cpp:81-91 | for every interleaving, a registered handler gets what its channel's parser produced, in order, but for what is still queued; others get nothing |
| MessageLayer.Core.ReceiveUart | src/core/MessageLayer.cpp:25-43 | the receive handler parses and queues all messages, in order |
| MessageLayer.Core.TakeOne | src/core/MessageLayer.cpp:45-67 | one iteration dispatches the head of the queue |
| Decimal.ToStringIsCanonical | src/core/utility.cpp:675-692 | the decimal text of a number has its value and no superfluous leading zero |
| Decimal.SplitOfFormatted | src/core/utility.cpp:212-227 | formatting and splitting loses nothing but digits beyond the field: i * 10^n + f = floor(v * 10^n / 10^e) with n fraction digits |
| Decimal.FormattedReadsBackIff | src/core/utility.cpp:175-198 | value and exponent are read back exactly when the value fits 31 bits and a zero has two decimals |
| Decimal.FormattersAgreeIff | src/core/utility.cpp:675-692 | both formatters give the same text up to the mark for every value but zero, and for zero exactly with two decimals |
| Decimal.FormatDecimalValue | src/core/utility.cpp:675-692 | the padding loop and the insertion give the text with a point |
| Decimal.DecimalTextDenotes | src/core/utility.cpp:675-692 | the text with a point has a whole part without superfluous zeros and just so many decimals, whose digits are the value |
| Decimal.ReadsNumberInFront | src/core/utility.cpp:175-198 | a text is read as blanks, a sign and digits, whatever follows, when a `long` holds the number |
| Decimal.ReadsNoNumber | src/core/utility.cpp:175-198 | a text that does not begin so has no number |
| Decimal.NarrowWraps | src/core/utility.cpp:175-198 | a `long` becomes the 32-bit `int` that differs by a multiple of 2^32 |
| Decimal.ReadsSignedText | src/core/utility.cpp:175-198 | a signed text with a comma is read as its digits and the number of decimals |
| PinPad.Pad.HandleTouchPinPad | src/logic/DwinLogic.cpp:347-438 | the buffer and the entry after every key |
| PinPad.PressKeepsCanonical | src/logic/DwinLogic.cpp:352-389 | every key keeps the buffer empty or a canonical number of at most seven characters |
| PinPad.ReachableIffCanonical | src/logic/DwinLogic.cpp:347-422 | the texts that key sequences produce are exactly the canonical ones |
| PinPad.AlwaysCanonical | src/logic/DwinLogic.cpp:347-422 | after every key sequence the buffer is canonical |
| PinPad.RequestDenotesEntryIff | src/logic/PrimeLogic.cpp:785-791 | an entered text can always be read, and the order request denotes the typed number exactly when its digits are below 65536 |
| PinPad.KeyEffects | src/logic/DwinLogic.cpp:354-389 | what each key does to a canonical text: digits and commas are taken exactly when the text stays canonical |
| PinPad.HandsOverIff | src/logic/DwinLogic.cpp:389-419 | exactly the key 13 hands over a text that is not empty, just as it stands, and empties the pad |
| PinPad.TypedIsHandedOver | src/logic/DwinLogic.cpp:347-419 | the text that was typed is the text handed over, for every canonical text |
| PinPad.DeclinedIsGone | src/logic/DwinLogic.cpp:380-382 | the key 11 hands nothing over and empties the pad |
| PinPad.BackspaceTakesBack | src/logic/DwinLogic.cpp:384-387 | the key 12 takes back just the last character |
| PinPad.TouchArrives | src/logic/DwinLogic.cpp:351-353 | a touch packet's bytes arrive as one message with its VP address and key |
| HttpFraming.SplitInvertsJoinIff | src/transport/HttpTransport.cpp:58-84 | the transport recovers method, URL, id and body exactly when the first three hold no NUL |
| HttpFraming.ParseInvertsFrameIff | src/parser/HttpParser.cpp:14-51 | a response frame parses back exactly when URL and id hold no NUL |
| HttpFraming.DeviceIdReadBackIff | src/core/utility.cpp:142-156 | the id put into a device URL is read back exactly when it holds no slash |
| HttpFraming.DeviceRoundTrip | src/parser/HttpParser.cpp:53-84 | a device request, framed, split, answered in any way and parsed: its method, URL and body, and one message naming the device in id and URL, with the answer's status and body or 599 and the error |
| HttpFraming.RequestArrives | src/parser/HttpParser.cpp:53-84 | the transport gets the route's method, its URL with the id in place, the id, and the payload as body except with GET; unrouted messages are not framed |
| HttpFraming.ReplacesFirst | src/core/utility.cpp:29-35 | the id takes the place of the first placeholder only |
| HttpFraming.ShortRequestsAreDropped | src/transport/HttpTransport.cpp:58-84 | frames with fewer than three marks hold no request |
| HttpFraming.ShortFramesParse | src/parser/HttpParser.cpp:14-51 | what incomplete response frames parse to, and that a status that is no number is no message |
| HttpFraming.HttpParser.SerializeMessage | src/parser/HttpParser.cpp:53-84 | the request frame of a routed message |
| HttpFraming.HttpParser.ParseResponse | src/parser/HttpParser.cpp:14-51 | the message of a response frame |
| HttpFraming.HttpTransport.Send | src/transport/HttpTransport.cpp:58-84 | queues the task a well-formed frame holds, when running |
| HttpFraming.HttpTransport.Work | src/transport/HttpTransport.cpp:86-171 | serves the oldest task and frames its answer |
| PageTimers.DueIff | src/logic/PrimeLogic.cpp:994-995 | cutting the elapsed time to whole seconds makes no timer early or late |
| PageTimers.WaitsIff | src/logic/PrimeLogic.cpp:990-1018 | a timer waits exactly while no event has ended it |
| PageTimers.FiresIff | src/logic/PrimeLogic.cpp:990-1018 | an event shows a timer's page exactly when it is the first check at or after start plus timeout and no clear came between |
| PageTimers.FiredOnce | src/logic/PrimeLogic.cpp:990-1005 | no two events fire the same timer |
| PageTimers.FiredInOrder | src/logic/PrimeLogic.cpp:990-1005 | a check shows its pages in start order, each once |
| PageTimers.TimersInOrder | src/logic/PrimeLogic.cpp:1007-1014 | in every run the waiting timers are in start order |
| PageTimers.PageTimers.Check | src/logic/PrimeLogic.cpp:990-1005 | erasing while walking fires exactly the due timers and keeps the others, both in order |
| Statement.AlwaysSharedIff | include/+infrastructure/initp-cpp/source/SQLiteCpp/Statement.cpp:446-516 | throughout a run the counter tells the holders and the statement is finalized once, when the last is gone, if and only if the holders stay in the counter's range |
| Statement.NoUseAfterFinalize | include/+infrastructure/initp-cpp/source/SQLiteCpp/Statement.cpp:493-516 | no live object holds a finalized statement |
| Statement.AlwaysHandled | include/+infrastructure/initp-cpp/source/SQLiteCpp/Statement.cpp:332-340 | a statement object with a row holds its statement, so `getColumn` never shares a moved-from pointer |
| Statement.StepKeeps | include/+infrastructure/initp-cpp/source/SQLiteCpp/Statement.cpp:446-516 | every operation keeps counter, holders and finalizations in step |
| Statement.ColumnIsSharedIff | include/+infrastructure/initp-cpp/source/SQLiteCpp/Statement.cpp:332-340 | `getColumn` shares the statement exactly when a row is there and the index is in range |
| Statement.SteppingTellsRow | include/+infrastructure/initp-cpp/source/SQLiteCpp/Statement.cpp:300-327 | what stepping, resetting and moving leave of the row flags and of the holders |
| Statement.Ptr.Prepare | include/+infrastructure/initp-cpp/source/SQLiteCpp/Statement.cpp:446-462 | a prepared statement starts with one holder |
| Statement.Ptr.Copy | include/+infrastructure/initp-cpp/source/SQLiteCpp/Statement.cpp:468-479 | a copy is one more holder of the shared counter |
| Statement.Ptr.Move | include/+infrastructure/initp-cpp/source/SQLiteCpp/Statement.cpp:481-491 | a move changes the holder, not the count, and empties the source |
| Statement.Ptr.Destroy | include/+infrastructure/initp-cpp/source/SQLiteCpp/Statement.cpp:493-516 | the last holder, and only it, finalizes the statement |

## Left out

- Threads, mutexes and data races: a handler or callback is one step, and steps interleave.
- Serial port, sockets, TLS, sessions, authentication, named pipes, SQLite and the terminal's protocol library: they
  are the environment that delivers events and outcomes.
- Pages, icons, sounds, VP numbers, receipt texts and settings; so a step of `PrimeModel` leaves out the display
  messages and `sendTo` requests other than status and gauge readings, and the start and clearing of page timers, which
  `PageTimers` models by themselves.
- The amounts of an order, the decimals inside a PAY_CONFIRM payload and the gauge readings inside a sale: they go
  through floating point or are copied; a sale is modelled by its id and type.
- Floating point (revert amounts, progress percent), the wall clock's texts and CP1251 beyond ASCII.
- JSON: records arrive decoded. Exceptions in the middle of a handler, caused by malformed records, are not modelled.
- Null and out-of-range accesses: an unknown dispenser in a status event, `tanker_end` for an order without a sale, and
  an index outside the selected dispensers are steps without effect or not offered as events; a PIN request that fails
  during a balance query has no order id in the source either.
- A polled order whose product is not loaded and that has no sale yet: the source follows a null pointer there
  (src/logic/PrimeLogic.cpp:1868), the model opens a sale. Runs that show a promise to fail load the product first.
- `m_dispensers` is a map by id, not a vector searched by id; gauge devices in a device list are left out.
- Re-entrancy between the two logics is modelled where it changes state: a refused payment frame comes back inside
  `CreatePayment`, a failure makes the order logic clear the card inside `SendPaymentFailure`.
- Payments.OneAmountPerOrder: the link between the two logics is the order of payment and confirmation messages; the
  amounts inside them are the payment object's inputs.
- Statement: the lazily filled column map, bindings and SQLite's own error codes.
- HttpTransport: redirects, digest and basic authentication, time-outs and the status dispatch behind the parser.
- `BosLogic`, the repositories and the fiscal register: thin wrappers around tables and devices.
