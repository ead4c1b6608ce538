/**
 * A chat widget as the components hold it: fields updated in place by the
 * component's methods, and the browser's storage and address bar shared
 * with the rest of the page. Every method is proved to perform the step of
 * `Paywall` it implements, so the laws proved there about the steps hold of
 * the widget.
 */
module ChatWidgets {
  import opened Wrappers
  import opened Text
  import opened Records
  import opened BrowserState
  import opened PaymentService
  import opened Paywall

  class ChatWidget {
    /** The conversation on screen. */
    var messages: seq<Message>
    /** `userMessageCount`. */
    var count: nat
    /** `hasUserPaidFor...`. */
    var paid: bool
    /** `blockedMessageId`. */
    var blocked: Option<string>
    /** `currentMessage`. */
    var input: string
    /** `isLoading`. */
    var loading: bool
    /** `showDataModal`, `showPaymentModal`, `isProcessingPayment`, `paymentError`. */
    var dataModal: bool
    var paymentModal: bool
    var processing: bool
    var paymentError: Option<string>
    /** `userData`. */
    var userData: Option<UserData>
    /** The order bodies the widget has posted itself, oldest first. */
    var orders: seq<OrderData>
    /** What distinguishes this widget from the others. */
    const widget: Widget
    const browser: Browser

    /** The fields and the browser state, as one value. */
    function View(): ChatView
      reads this, browser
    {
      ChatView(messages, count, paid, blocked, input, loading, dataModal, paymentModal, processing, paymentError,
               userData, orders, browser.session, browser.local, browser.location, browser.navigation)
    }

    /** A fresh component: nothing on screen, unpaid, nothing loading. */
    constructor(widget: Widget, browser: Browser)
      ensures this.widget == widget && this.browser == browser
      ensures messages == [] && count == 0 && !paid && blocked == None && input == [] && !loading
      ensures !dataModal && !paymentModal && !processing && paymentError == None && userData == None && orders == []
    {
      this.widget := widget;
      this.browser := browser;
      messages, count, paid, blocked := [], 0, false, None;
      input, loading := [], false;
      dataModal, paymentModal, processing, paymentError := false, false, false, None;
      userData, orders := None, [];
    }

    // --------------------------------------------------------- storage

    /** `saveMessagesToSession`. */
    method SaveMessages()
      modifies browser
      ensures View() == MessagesSaved(widget, old(View()))
    {
      browser.session := browser.session[widget.keys.messages := Json(MessagesDoc(messages))];
    }

    method SaveCount()
      modifies browser
      ensures View() == CountSaved(widget, old(View()))
    {
      browser.session := browser.session[widget.keys.count := Text(NatToString(count))];
    }

    method SaveBlocked()
      modifies browser
      ensures View() == BlockedSaved(widget, old(View()))
    {
      if IsSet(blocked) {
        browser.session := browser.session[widget.keys.blocked := Text(blocked.value)];
      }
    }

    method SaveExtras(e: Extras)
      modifies browser
      ensures View() == ExtrasWritten(old(View()), e)
    {
      browser.session := browser.session + e.writes;
    }

    method SaveSnapshot(e: Extras, savedAt: string)
      modifies browser
      ensures View() == SnapshotSaved(widget, old(View()), e, savedAt)
    {
      SavePaymentData(browser, Snapshot(widget, View(), e), savedAt);
    }

    /** `saveStateBeforePayment`. */
    method SaveStateBeforePayment(e: Extras, savedAt: string)
      modifies browser
      ensures View() == StateSaved(widget, old(View()), e, savedAt)
    {
      SaveMessages();
      SaveCount();
      SaveBlocked();
      SaveExtras(e);
      SaveSnapshot(e, savedAt);
    }

    // -------------------------------------------------------- messages

    method Push(m: Message)
      modifies this
      ensures View() == Pushed(old(View()), m)
    {
      messages := messages + [m];
    }

    /** `addMessage`, or a bare `push` where the widget does not persist at once. */
    method Post(m: Message)
      modifies this, browser
      ensures View() == Posted(widget, old(View()), m)
    {
      Push(m);
      if widget.savesEveryPost {
        SaveMessages();
      }
    }

    // ------------------------------------------------------------ send

    method CountMessage()
      modifies this
      ensures View() == old(View()).(count := old(count) + 1)
    {
      count := count + 1;
    }

    method AwaitAnswer()
      modifies this
      ensures View() == old(View()).(input := [], loading := true)
    {
      input, loading := [], true;
    }

    /** `process...UserMessage(text)` up to the request. */
    method Process(text: string)
      modifies this, browser
      ensures View() == Processed(widget, old(View()), text)
    {
      CountMessage();
      SaveCount();
      Post(Message(true, text, None));
      if widget.savesUserMessage {
        SaveMessages();
      }
      AwaitAnswer();
    }

    method WriteCredits(n: nat)
      requires widget.keys.credits.Some?
      modifies browser
      ensures View() == old(View()).(session := old(browser.session)[widget.keys.credits.value := Text(NatToString(n))])
    {
      browser.session := browser.session[widget.keys.credits.value := Text(NatToString(n))];
    }

    /** `useFree...Consultation`. */
    method UseCredit()
      modifies this, browser
      ensures View() == CreditUsed(widget, old(View()))
    {
      if widget.keys.credits.Some? && Credits(widget, browser.session) > 0 {
        var remaining := Credits(widget, browser.session) - 1;
        WriteCredits(remaining);
        Post(Said(CreditNotice(widget, remaining)));
        SaveMessages();
      }
    }

    method HoldBack(text: string)
      modifies this, browser
      ensures View() == old(View()).(paymentModal := PaymentModalAfterHold(widget, old(paymentModal)),
                                     session := old(browser.session)[widget.keys.pending := Text(text)])
    {
      paymentModal := PaymentModalAfterHold(widget, paymentModal);
      browser.session := browser.session[widget.keys.pending := Text(text)];
    }

    method OpenDataModal()
      modifies this
      ensures View() == old(View()).(dataModal := true)
    {
      dataModal := true;
    }

    /** The interception of a send for checkout. */
    method Intercept(text: string, e: Extras, savedAt: string)
      modifies this, browser
      ensures View() == Intercepted(widget, old(View()), text, e, savedAt)
    {
      HoldBack(text);
      SaveStateBeforePayment(e, savedAt);
      OpenDataModal();
    }

    /**
     * `sendMessage`: returns the request made to the chat service, if any.
     * `e` and `savedAt` are what the snapshot of an interception holds.
     */
    method SendMessage(e: Extras, savedAt: string) returns (request: Option<ChatRequest>)
      modifies this, browser
      ensures View() == Sent(widget, old(View()), e, savedAt)
      ensures request == Requested(widget, old(View()))
    {
      ghost var v := View();
      var text := Trim(input);
      if text == [] || loading {
        return None;
      }
      if paid {
        Process(text);
      } else if Credits(widget, browser.session) > 0 {
        UseCredit();
        Process(text);
      } else if count >= widget.threshold - 1 {
        Intercept(text, e, savedAt);
        return None;
      } else {
        Process(text);
      }
      assert messages == Sent(widget, v, NoExtras, "").messages;
      request := Some(ChatRequest(text, History(widget, messages)));
    }

    // --------------------------------------------------------- receive

    method MarkBlocked(id: string)
      modifies this, browser
      ensures View() == old(View()).(blocked := Some(id), session := old(browser.session)[widget.keys.blocked := Text(id)])
    {
      blocked := Some(id);
      browser.session := browser.session[widget.keys.blocked := Text(id)];
    }

    method SwapModals()
      modifies this
      ensures View() == old(View()).(paymentModal := PaymentModalAfterHold(widget, old(paymentModal)), dataModal := true)
    {
      paymentModal, dataModal := PaymentModalAfterHold(widget, paymentModal), true;
    }

    /** The reply `id` blocked and the state saved for checkout. */
    method Block(id: string, e: Extras, savedAt: string)
      modifies this, browser
      ensures View() == BlockedAt(widget, old(View()), id, e, savedAt)
    {
      MarkBlocked(id);
      SaveStateBeforePayment(e, savedAt);
      SwapModals();
    }

    method StopLoading()
      modifies this
      ensures View() == old(View()).(loading := false)
    {
      loading := false;
    }

    /** The answer of the chat service to the last request; `id` is the id given to a reply. */
    method ReceiveAnswer(answer: Answer, id: string, e: Extras, savedAt: string)
      modifies this, browser
      ensures View() == Received(widget, old(View()), answer, id, e, savedAt)
    {
      StopLoading();
      match answer {
        case Reply(text) =>
          Post(Message(false, text, Some(id)));
          if BlockDue(widget, View()) {
            Block(id, e, savedAt);
          }
          SaveMessages();
        case Notice(text, persisted) =>
          Post(Said(text));
          if persisted {
            SaveMessages();
          }
      }
    }

    /** `isMessageBlocked(message)`. */
    function IsMessageBlocked(m: Message): (b: bool)
      reads this, browser
      ensures b == IsBlocked(View(), m)
    {
      m.id.Some? && blocked == m.id && !paid
    }

    // ----------------------------------------------- modals and prizes

    /** `onUserDataSubmitted(data)`. */
    method OnUserDataSubmitted(u: UserData)
      modifies this, browser
      ensures View() == UserDataSubmitted(old(View()), u)
    {
      userData := Some(u);
      dataModal := false;
      browser.session := browser.session[UserDataKey := Json(UserDoc(u))];
    }

    /** `cancelPayment`. */
    method CancelPayment()
      modifies this
      ensures View() == PaymentCancelled(old(View()))
    {
      paymentModal, processing, paymentError := false, false, None;
    }

    method Unblock()
      modifies this, browser
      ensures View() == Unblocked(widget, old(View()))
    {
      blocked := None;
      browser.session := browser.session - {widget.keys.blocked};
    }

    /** `addFree...Consultations(n)`. */
    method AddCredits(n: nat)
      modifies this, browser
      ensures View() == CreditsAdded(widget, old(View()), n)
    {
      if widget.keys.credits.Some? {
        WriteCredits(Credits(widget, browser.session) + n);
        if IsSet(blocked) && !paid {
          Unblock();
        }
      }
    }

    method MarkPremium()
      modifies this, browser
      ensures View() == PremiumMarked(widget, old(View()))
    {
      browser.session := browser.session[widget.keys.paidFlag := Text("true")];
      if widget.prizeMarksService {
        SaveServicePaymentStatus(browser, widget.paidServiceId, true);
      }
      paid := true;
      if IsSet(blocked) {
        Unblock();
      }
    }

    method GrantPremium()
      modifies this, browser
      ensures View() == PremiumGranted(widget, old(View()))
    {
      MarkPremium();
      Post(Said(widget.premiumNotice));
      SaveMessages();
    }

    /** `onPrizeWon(prize)`. */
    method OnPrizeWon(prizeId: string, announcement: string)
      modifies this, browser
      ensures View() == PrizeWon(widget, old(View()), prizeId, announcement)
    {
      Post(Said(announcement));
      SaveMessages();
      if prizeId == "1" {
        AddCredits(3);
      } else if prizeId == "2" {
        GrantPremium();
      }
    }

    // ------------------------------------------- checkout from the widget

    method OpenPaymentModal()
      modifies this
      ensures View() == old(View()).(paymentModal := true, paymentError := None, processing := false)
    {
      paymentModal, paymentError, processing := true, None, false;
    }

    /** `JSON.parse(sessionStorage.getItem('userData'))`, kept when nothing is stored. */
    method LoadUser()
      modifies this
      ensures View() == UserLoaded(old(View()))
    {
      match ReadUser(browser.session, UserDataKey) {
        case Absent =>
        case Malformed => userData := None;
        case Parsed(u) => userData := Some(u);
      }
    }

    /** `promptForPayment`. */
    method PromptForPayment()
      modifies this
      ensures View() == PaymentPrompted(old(View()))
    {
      OpenPaymentModal();
      if userData.None? {
        LoadUser();
      }
      if userData.None? || userData.value.email == "" {
        paymentError, paymentModal, dataModal := Some(NoBuyerText), false, true;
      }
    }

    method StartCheckout()
      modifies this
      ensures View() == CheckoutStarted(old(View()))
    {
      processing, paymentError := true, None;
    }

    method FailCheckout(message: string)
      modifies this
      ensures View() == CheckoutFailed(old(View()), message)
    {
      paymentError, processing := Some(OrElse(message, CheckoutFailedText)), false;
    }

    method SendOrder(service: ServiceConfig, buyer: UserData)
      modifies this
      ensures View() == OrderSent(old(View()), service, buyer)
    {
      orders := orders + [WithDefaults(WidgetOrder(service, buyer))];
    }

    /**
     * `handlePaymentSubmit`; `outcome` is what `createOrder` answers or the
     * message of the error it throws.
     */
    method HandlePaymentSubmit(service: ServiceConfig, outcome: Result<OrderReply, string>, savedAt: string)
      modifies this, browser
      ensures View() == PaymentSubmitted(widget, old(View()), service, outcome, savedAt)
    {
      StartCheckout();
      SaveSnapshot(NoExtras, savedAt);
      if userData.None? {
        FailCheckout(NullBuyerText);
        return;
      }
      SendOrder(service, userData.value);
      match outcome {
        case Failure(message) => FailCheckout(message);
        case Success(reply) =>
          var r := RedirectToPayment(browser, CheckoutUrl(reply));
          if r.Failure? {
            FailCheckout(NoPaymentUrlText);
          }
      }
    }

    // --------------------------------------------------- initialisation

    method Open()
      modifies this
      ensures View() == Opened(widget, old(View()))
    {
      paid := IsTrueItem(browser.session, widget.keys.paidFlag) || IsServicePaid(browser.session, widget.paidServiceId);
    }

    method MarkPaid()
      modifies this, browser
      ensures View() == MarkedPaid(widget, old(View()))
    {
      browser.session := browser.session[widget.keys.paidFlag := Text("true")];
      SaveServicePaymentStatus(browser, widget.paidServiceId, true);
      paid := true;
      Unblock();
    }

    /** What an approved return takes back from the snapshot. */
    method Restore()
      modifies this, browser
      ensures View() == Restored(widget, old(View()))
    {
      var record := GetPaymentData(browser.local);
      if record.Some? {
        var saved := record.value.snapshot;
        var history := saved.HistoryUnder(widget.historyField);
        var user := saved.SavedUser();
        if history.Some? {
          messages := history.value;
        }
        if saved.SavedCount().Some? {
          count := saved.SavedCount().value;
        }
        if user.Some? {
          userData := user;
          browser.session := browser.session[UserDataKey := Json(UserDoc(user.value))];
        }
      }
    }

    /** `clearPaymentData(); cleanPaymentParamsFromUrl()`. */
    method ClearPayment()
      modifies browser
      ensures View() == PaymentCleared(old(View()))
    {
      ClearPaymentData(browser);
      CleanPaymentParamsFromUrl(browser);
    }

    method Confirm()
      modifies this, browser
      ensures View() == Confirmed(widget, old(View()))
    {
      Post(Said(widget.confirmation));
      SaveMessages();
    }

    /** The message held back for checkout, taken out of storage to be replayed 2 s later. */
    method TakePending() returns (replay: Option<string>)
      modifies browser
      ensures (View(), replay) == PendingTaken(widget, old(View()))
    {
      if HasItem(browser.session, widget.keys.pending) {
        replay := RawItem(browser.session, widget.keys.pending);
        browser.session := browser.session - {widget.keys.pending};
      } else {
        replay := None;
      }
    }

    /** The approved branch of `ngOnInit`. */
    method ReturnApproved() returns (replay: Option<string>)
      modifies this, browser
      ensures (View(), replay) == ApprovedReturn(widget, old(View()))
    {
      MarkPaid();
      Restore();
      ClearPayment();
      Confirm();
      replay := TakePending();
    }

    method CleanUrl()
      modifies browser
      ensures View() == UrlCleaned(old(View()))
    {
      CleanPaymentParamsFromUrl(browser);
    }

    /** The pending and rejected branches of `ngOnInit`. */
    method ReturnNotApproved()
      modifies this, browser
      ensures View() == Returned(widget, old(View()))
    {
      var query := browser.location.query;
      if !HasPaymentParams(query) {
        return;
      }
      var status := CheckPaymentStatus(query).status;
      if status == Some(Pending) {
        Post(Said(PendingNotice));
        CleanUrl();
      } else if status == Some(Rejected) {
        paymentError := Some(PaymentFailedText);
        CleanUrl();
      }
    }

    method ClearSession()
      modifies browser
      ensures View() == SessionCleared(widget, old(View()))
    {
      browser.session := browser.session - {widget.keys.messages, widget.keys.count, widget.keys.blocked};
    }

    method ResetCount()
      modifies this
      ensures View() == old(View()).(count := 0)
    {
      count := 0;
    }

    /** The welcome message. */
    method Welcome(greeting: string)
      modifies this, browser
      ensures View() == Welcomed(widget, old(View()), greeting)
    {
      ResetCount();
      SaveCount();
      Post(Said(greeting));
    }

    method Resume(ms: seq<Message>)
      modifies this
      ensures View() == old(View()).(messages := ms, count := CountOf(RawItem(browser.session, widget.keys.count)),
                                     blocked := BlockedRead(browser.session, widget.keys.blocked))
    {
      messages := ms;
      count := CountOf(RawItem(browser.session, widget.keys.count));
      blocked := BlockedRead(browser.session, widget.keys.blocked);
    }

    /** Loading the stored conversation. */
    method LoadConversation(greeting: string)
      modifies this, browser
      ensures View() == Loaded(widget, old(View()), greeting)
    {
      match ReadMessages(browser.session, widget.keys.messages) {
        case Parsed(ms) => Resume(ms);
        case Malformed =>
          if widget.clearsOnMalformed {
            ClearSession();
          }
          Welcome(greeting);
        case Absent =>
          if widget.welcomesWhenAbsent {
            Welcome(greeting);
          }
      }
    }

    method UnblockIfPaid()
      modifies this, browser
      ensures View() == UnblockedIfPaid(widget, old(View()))
    {
      if paid && IsSet(blocked) {
        Unblock();
      }
    }

    /** The end of `ngOnInit`. */
    method Settle(greeting: string)
      modifies this, browser
      ensures View() == Settled(widget, old(View()), greeting)
    {
      LoadUser();
      if messages == [] {
        LoadConversation(greeting);
      }
      UnblockIfPaid();
      if !widget.welcomesWhenAbsent && messages == [] {
        Welcome(greeting);
      }
    }

    /** `ngOnInit`; returns the message to replay 2 s later, if any. */
    method Init(greeting: string) returns (replay: Option<string>)
      modifies this, browser
      ensures (View(), replay) == Initialised(widget, old(View()), greeting)
    {
      Open();
      if ApprovedQuery(browser.location.query) {
        replay := ReturnApproved();
        return;
      }
      ReturnNotApproved();
      Settle(greeting);
      replay := None;
    }

    /** `ngOnInit` with the conversation loaded before the pending notice. */
    method InitLoadingFirst(greeting: string) returns (replay: Option<string>)
      modifies this, browser
      ensures (View(), replay) == InitialisedLoadingFirst(widget, old(View()), greeting)
    {
      Open();
      var query := browser.location.query;
      if ApprovedQuery(query) {
        replay := ReturnApproved();
        return;
      }
      if HasPaymentParams(query) && CheckPaymentStatus(query).status == Some(Pending) {
        Settle(greeting);
        Post(Said(PendingNotice));
        SaveMessages();
        CleanUrl();
      } else {
        ReturnNotApproved();
        Settle(greeting);
      }
      replay := None;
    }

    // ----------------------------------------------------------- resets

    /** The conversation emptied and `removed` taken out of storage. */
    method Empty(removed: set<string>)
      modifies this, browser
      ensures View() == Emptied(old(View()), removed)
    {
      messages, count, blocked := [], 0, None;
      browser.session := browser.session - removed;
    }

    /** A new conversation: emptied, then welcomed. */
    method Restart(removed: set<string>, greeting: string)
      modifies this, browser
      ensures View() == Welcomed(widget, Emptied(old(View()), removed), greeting)
    {
      Empty(removed);
      Welcome(greeting);
    }

    method ClearInput()
      modifies this
      ensures View() == InputCleared(old(View()))
    {
      input, loading := [], false;
    }

    method CloseModals()
      modifies this
      ensures View() == ModalsClosed(old(View()))
    {
      paymentModal, dataModal, processing, paymentError := false, false, false, None;
    }
  }
}
