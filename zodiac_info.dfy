/**
 * The zodiac-information widget (`informacion-zodiaco`): the paywall with
 * two free messages (the third is held back) and free consultations, and an
 * `ngOnInit` of its own.
 * An approved return takes the conversation from the snapshot or, failing
 * that, from the session; the pending and rejected returns load the stored
 * conversation before they add their notice; and `startConversation` only
 * greets an empty conversation.
 */
module ZodiacInfo {
  import opened Wrappers
  import opened Text
  import opened Records
  import opened PaymentService
  import opened Paywall
  import opened PaywallLaws
  import opened PaywallReturns
  import opened ChatWidgets

  const Confirmation := "✨ **¡Pago confirmado exitosamente!** ✨\n\n🌟 Ahora tienes acceso completo e ilimitado a mi sabiduría sobre los astros y el zodiaco.\n\nLas estrellas te dan la bienvenida. Puedes preguntarme lo que desees sobre tu signo zodiacal, compatibilidades, predicciones astrológicas y todos los misterios celestiales.\n\n¿Qué secreto de las estrellas deseas descubrir?"
  const PremiumNotice := "✨ **¡Has desbloqueado el acceso Premium completo!** ✨\n\nAhora tienes acceso ilimitado a todo el conocimiento astral."
  /** The reply the service call falls back to whenever it fails. */
  const Fallback := "🌟 Las estrellas están temporalmente nubladas. Por favor, intenta de nuevo en unos momentos."
  /** The message a rejected return adds to the conversation. */
  const RejectedNotice := "❌ El pago no se pudo completar. Por favor, intenta nuevamente."

  const Config := Widget(
    3,
    Keys("hasUserPaidForZodiacInfo_zodiacInfo", "astrologyMessages", "astrologyUserMessageCount",
         "blockedAstrologyMessageId", "pendingAstrologyMessage", Some("freeAstrologyConsultations")),
    "3", "messages", map["serviceId" := "3", "serviceName" := "Información del Zodiaco"],
    "astrologer", NonBlank,
    false, true, true, true, true, false,
    Confirmation,
    "✨ *Has utilizado una consulta astral gratuita* ✨\n\nTe quedan **", "** consultas astrales gratuitas.",
    PremiumNotice)

  /** The widget's keys are apart from each other and from the shared ones. */
  lemma ConfigFits()
    ensures WellKeyed(Config) && ApartFromShared(Config) && ExtrasFit(Config, NoExtras)
  {
  }

  /** The prize announcement of `onPrizeWon`. */
  function Announcement(p: Prize): string
  {
    "🌟 ¡Las energías cósmicas te han bendecido! Has ganado: **" + p.name + "** " + p.icon
    + "\n\nEste regalo del universo ha sido activado para ti. Los secretos del zodiaco te serán revelados con mayor claridad."
  }

  // ------------------------------------------------------------- answers

  /**
   * `generateAstrologyResponse`: a successful non-empty text is the reply,
   * and anything else, an error included, becomes the fallback reply, so
   * the subscriber's error branch is never reached.
   */
  function AnswerOf(reply: ServiceReply): (a: Answer)
    ensures a.Reply?
    ensures a.text == Fallback <==> !(reply.Responded? && reply.success && reply.response != "") || reply.response == Fallback
  {
    match reply
    case Responded(success, text) => if success && text != "" then Reply(text) else Reply(Fallback)
    case Failed => Reply(Fallback)
  }

  /** Even the fallback is a reply with an id, so it can be blocked like any other. */
  lemma FallbackCanBlock(v: ChatView, reply: ServiceReply, id: string, e: Extras, savedAt: string)
    requires ExtrasFit(Config, e) && BlockDue(Config, v)
    ensures var r := Received(Config, v, AnswerOf(reply), id, e, savedAt);
      r.blocked == Some(id) && IsBlocked(r, r.messages[|r.messages| - 1])
  {
    ConfigFits();
    ReplyBlocks(Config, v, AnswerOf(reply).text, id, e, savedAt);
  }

  // ------------------------------------------------------------- loading
  //
  // The steps below are written for any widget description `w`; the
  // component itself is `Config`.

  /** `startConversation`: the counter reset and stored, and a greeting only for an empty conversation. */
  function ConversationStarted(w: Widget, v: ChatView, greeting: string): (r: ChatView)
    ensures r.paid == v.paid && r.blocked == v.blocked && r.local == v.local && r.location == v.location
  {
    var v1 := CountSaved(w, v.(count := 0));
    if v1.messages == [] then Posted(w, v1, Said(greeting)) else v1
  }

  /** `loadAstrologyData`. */
  function DataLoaded(w: Widget, v: ChatView, greeting: string): (r: ChatView)
    ensures r.paid == v.paid && r.local == v.local && r.location == v.location
  {
    match ReadMessages(v.session, w.keys.messages)
    case Parsed(ms) =>
      v.(messages := ms, count := CountOf(RawItem(v.session, w.keys.count)),
         blocked := BlockedRead(v.session, w.keys.blocked))
    case Malformed => ConversationStarted(w, SessionCleared(w, v), greeting)
    case Absent => ConversationStarted(w, v, greeting)
  }

  /** A notice added to the conversation and saved, and the address cleaned. */
  function Noted(w: Widget, v: ChatView, text: string): (r: ChatView)
    ensures r.paid == v.paid && r.blocked == v.blocked && r.count == v.count && r.messages == v.messages + [Said(text)]
  {
    UrlCleaned(MessagesSaved(w, Pushed(v, Said(text))))
  }

  // ------------------------------------------------------ approved return

  /**
   * The conversation the approved branch recovers: the snapshot's non-empty
   * one with its counter (0 when it holds none), or else the one stored in
   * the session with its counter, or else the one on screen.
   */
  function RecoveredConversation(w: Widget, v: ChatView): (seq<Message>, nat)
  {
    var saved := GetPaymentData(v.local);
    var history := if saved.Some? then saved.value.snapshot.HistoryUnder(w.historyField) else None;
    if history.Some? then
      (history.value, match saved.value.snapshot.SavedCount() case Some(n) => n case None => 0)
    else match ReadMessages(v.session, w.keys.messages)
      case Parsed(ms) => (ms, CountOf(RawItem(v.session, w.keys.count)))
      case _ => (v.messages, v.count)
  }

  /** The buyer the snapshot holds, if any. */
  function RecoveredUser(local: Storage): Option<UserData>
  {
    var saved := GetPaymentData(local);
    if saved.Some? then saved.value.snapshot.SavedUser() else None
  }

  /** The recovery of the approved branch: the conversation, then the buyer written back to the session. */
  function Recovered(w: Widget, v: ChatView): (r: ChatView)
    ensures r.paid == v.paid && r.blocked == v.blocked && r.local == v.local && r.location == v.location
    ensures (r.messages, r.count) == RecoveredConversation(w, v)
  {
    var (ms, n) := RecoveredConversation(w, v);
    var user := RecoveredUser(v.local);
    var v1 := v.(messages := ms, count := n);
    if user.Some? then v1.(userData := user, session := v1.session[UserDataKey := Json(UserDoc(user.value))]) else v1
  }

  /** The approved branch, up to its `return`. */
  function ApprovedReturned(w: Widget, v: ChatView): (ChatView, Option<string>)
  {
    PendingTaken(w, Confirmed(w, PaymentCleared(Recovered(w, MarkedPaid(w, v)))))
  }

  /** `ngOnInit`; the result pairs the state with the message to replay 2 s later, if any. */
  function Initialised(w: Widget, v: ChatView, greeting: string): (ChatView, Option<string>)
  {
    var v1 := Opened(w, v);
    var q := v1.location.query;
    var status := CheckPaymentStatus(q);
    if !HasPaymentParams(q) then (UnblockedIfPaid(w, DataLoaded(w, UserLoaded(v1), greeting)), None)
    else if status.isPaid && status.status == Some(Approved) then ApprovedReturned(w, v1)
    else if status.status == Some(Pending) then
      (UnblockedIfPaid(w, Noted(w, DataLoaded(w, v1, greeting), PendingNotice)), None)
    else if status.status == Some(Rejected) || status.status == Some(Status.Failure) then
      (UnblockedIfPaid(w, Noted(w, DataLoaded(w, v1, greeting).(paymentError := Some(PaymentFailedText)), RejectedNotice)), None)
    else (UnblockedIfPaid(w, v1), None)
  }

  /** `clearConversation`: emptied, the three keys removed, the input cleared, then `startConversation`. */
  function ConversationCleared(w: Widget, v: ChatView, greeting: string): ChatView
  {
    ConversationStarted(w, InputCleared(Emptied(v, {w.keys.messages, w.keys.count, w.keys.blocked})), greeting)
  }

  // ------------------------------------------------- the component's steps

  method StartConversation(c: ChatWidget, greeting: string)
    modifies c, c.browser
    ensures c.View() == ConversationStarted(c.widget, old(c.View()), greeting)
  {
    c.ResetCount();
    c.SaveCount();
    if c.messages == [] {
      c.Post(Said(greeting));
    }
  }

  method LoadData(c: ChatWidget, greeting: string)
    modifies c, c.browser
    ensures c.View() == DataLoaded(c.widget, old(c.View()), greeting)
  {
    match ReadMessages(c.browser.session, c.widget.keys.messages) {
      case Parsed(ms) => c.Resume(ms);
      case Malformed =>
        c.ClearSession();
        StartConversation(c, greeting);
      case Absent => StartConversation(c, greeting);
    }
  }

  method Note(c: ChatWidget, text: string)
    modifies c, c.browser
    ensures c.View() == Noted(c.widget, old(c.View()), text)
  {
    c.Push(Said(text));
    c.SaveMessages();
    c.CleanUrl();
  }

  method TakeMessages(c: ChatWidget, ms: seq<Message>, n: nat)
    modifies c
    ensures c.View() == old(c.View()).(messages := ms, count := n)
  {
    c.messages, c.count := ms, n;
  }

  method TakeUser(c: ChatWidget, u: UserData)
    modifies c, c.browser
    ensures c.View() == old(c.View()).(userData := Some(u), session := old(c.browser.session)[UserDataKey := Json(UserDoc(u))])
  {
    c.userData := Some(u);
    c.browser.session := c.browser.session[UserDataKey := Json(UserDoc(u))];
  }

  method Recover(c: ChatWidget)
    modifies c, c.browser
    ensures c.View() == Recovered(c.widget, old(c.View()))
  {
    var (ms, n) := RecoveredConversation(c.widget, c.View());
    TakeMessages(c, ms, n);
    var user := RecoveredUser(c.browser.local);
    if user.Some? {
      TakeUser(c, user.value);
    }
  }

  method ReturnApproved(c: ChatWidget) returns (replay: Option<string>)
    modifies c, c.browser
    ensures (c.View(), replay) == ApprovedReturned(c.widget, old(c.View()))
  {
    c.MarkPaid();
    Recover(c);
    c.ClearPayment();
    c.Confirm();
    replay := c.TakePending();
  }

  method FailPayment(c: ChatWidget)
    modifies c
    ensures c.View() == old(c.View()).(paymentError := Some(PaymentFailedText))
  {
    c.paymentError := Some(PaymentFailedText);
  }

  /** `ngOnInit`; returns the message to replay 2 s later, if any. */
  method Init(c: ChatWidget, greeting: string) returns (replay: Option<string>)
    modifies c, c.browser
    ensures (c.View(), replay) == Initialised(c.widget, old(c.View()), greeting)
  {
    c.Open();
    var q := c.browser.location.query;
    var status := CheckPaymentStatus(q);
    replay := None;
    if !HasPaymentParams(q) {
      c.LoadUser();
      LoadData(c, greeting);
    } else if status.isPaid && status.status == Some(Approved) {
      replay := ReturnApproved(c);
      return;
    } else if status.status == Some(Pending) {
      LoadData(c, greeting);
      Note(c, PendingNotice);
    } else if status.status == Some(Rejected) || status.status == Some(Status.Failure) {
      LoadData(c, greeting);
      FailPayment(c);
      Note(c, RejectedNotice);
    }
    c.UnblockIfPaid();
  }

  method ClearConversation(c: ChatWidget, greeting: string)
    modifies c, c.browser
    ensures c.View() == ConversationCleared(c.widget, old(c.View()), greeting)
  {
    c.Empty({c.widget.keys.messages, c.widget.keys.count, c.widget.keys.blocked});
    c.ClearInput();
    StartConversation(c, greeting);
  }

  // ---------------------------------------------------------------- laws

  /** `startConversation` zeroes and stores the counter, and greets exactly when nothing is on screen. */
  lemma StartGreetsOnlyEmpty(w: Widget, v: ChatView, greeting: string)
    requires WellKeyed(w)
    ensures var r := ConversationStarted(w, v, greeting);
      && r.count == 0 && CountOf(RawItem(r.session, w.keys.count)) == 0
      && r.messages == (if v.messages == [] then [Said(greeting)] else v.messages)
  {
    var v1 := CountSaved(w, v.(count := 0));
    CountOfToString(0);
    assert RawItem(v1.session, w.keys.count) == Some(NatToString(0));
    if v1.messages == [] {
      PostedTouchesOnlyMessages(w, v1, Said(greeting), w.keys.count);
    }
  }

  /**
   * The approved return with a conversation in the snapshot: paid, nothing
   * blocked, the snapshot's conversation and counter followed by the
   * confirmation, that conversation saved, and the snapshot gone.
   */
  lemma ApprovedFromSnapshot(w: Widget, v: ChatView, record: PaymentRecord)
    requires WellKeyed(w) && ApartFromShared(w)
    requires GetPaymentData(v.local) == Some(record) && record.snapshot.HistoryUnder(w.historyField).Some?
    ensures var r := ApprovedReturned(w, v).0;
      && r.paid && r.blocked == None
      && r.messages == record.snapshot.history + [Said(w.confirmation)]
      && r.count == record.snapshot.count
      && ReadMessages(r.session, w.keys.messages) == Parsed(r.messages)
      && GetPaymentData(r.local) == None
  {
    MarkedPaidFacts(w, v);
    ClearedAndConfirmed(w, Recovered(w, MarkedPaid(w, v)));
  }

  /**
   * The approved return without a conversation in the snapshot takes the
   * one stored in the session, with its counter, and adds the confirmation.
   */
  lemma ApprovedFromSession(w: Widget, v: ChatView, ms: seq<Message>)
    requires WellKeyed(w) && ApartFromShared(w)
    requires GetPaymentData(v.local).None? || GetPaymentData(v.local).value.snapshot.HistoryUnder(w.historyField).None?
    requires ReadMessages(v.session, w.keys.messages) == Parsed(ms)
    ensures var r := ApprovedReturned(w, v).0;
      && r.paid && r.blocked == None
      && r.messages == ms + [Said(w.confirmation)]
      && r.count == CountOf(RawItem(v.session, w.keys.count))
      && ReadMessages(r.session, w.keys.messages) == Parsed(r.messages)
      && GetPaymentData(r.local) == None
  {
    var m := MarkedPaid(w, v);
    MarkedPaidFacts(w, v);
    MarkedPaidTouchesOnly(w, v, w.keys.messages);
    MarkedPaidTouchesOnly(w, v, w.keys.count);
    UntouchedReads(m.session, v.session, w.keys.messages);
    UntouchedReads(m.session, v.session, w.keys.count);
    ClearedAndConfirmed(w, Recovered(w, m));
  }

  /** The notice of a return that is not approved: after the loaded conversation, saved, and the paid state kept. */
  lemma NotedAfterLoading(w: Widget, l: ChatView, text: string)
    requires WellKeyed(w)
    ensures var r := UnblockedIfPaid(w, Noted(w, l, text));
      && r.messages == l.messages + [Said(text)] && r.count == l.count && r.paid == l.paid
      && ReadMessages(r.session, w.keys.messages) == Parsed(r.messages)
  {
    var n := Noted(w, l, text);
    if n.paid && IsSet(n.blocked) {
      RemoveElsewhere(n.session, {w.keys.blocked}, w.keys.messages);
      UntouchedReads(n.session - {w.keys.blocked}, n.session, w.keys.messages);
    }
  }

  /**
   * The pending return loads the stored conversation first and adds one
   * notice after it, saved; the paid state is what the flags say.
   */
  lemma PendingKeepsConversation(w: Widget, v: ChatView, greeting: string, ms: seq<Message>)
    requires WellKeyed(w)
    requires HasPaymentParams(v.location.query) && CheckPaymentStatus(v.location.query).status == Some(Pending)
    requires ReadMessages(v.session, w.keys.messages) == Parsed(ms)
    ensures var r := Initialised(w, v, greeting).0;
      && r.messages == ms + [Said(PendingNotice)]
      && r.count == CountOf(RawItem(v.session, w.keys.count))
      && r.paid == Opened(w, v).paid
      && ReadMessages(r.session, w.keys.messages) == Parsed(r.messages)
  {
    NotedAfterLoading(w, DataLoaded(w, Opened(w, v), greeting), PendingNotice);
  }

  /**
   * The rejected return loads the stored conversation, sets the payment
   * error and adds one error message, saved; the paid state is what the
   * flags say.
   */
  lemma RejectedKeepsConversation(w: Widget, v: ChatView, greeting: string, ms: seq<Message>)
    requires WellKeyed(w)
    requires HasPaymentParams(v.location.query) && CheckPaymentStatus(v.location.query).status == Some(Rejected)
    requires ReadMessages(v.session, w.keys.messages) == Parsed(ms)
    ensures var r := Initialised(w, v, greeting).0;
      && r.messages == ms + [Said(RejectedNotice)]
      && r.paymentError == Some(PaymentFailedText)
      && r.paid == Opened(w, v).paid
      && ReadMessages(r.session, w.keys.messages) == Parsed(r.messages)
  {
    NotedAfterLoading(w, DataLoaded(w, Opened(w, v), greeting).(paymentError := Some(PaymentFailedText)), RejectedNotice);
  }

  /**
   * `clearConversation` leaves one greeting, no count, no block, and none of
   * the three keys but the count at "0" (this widget does not save on every
   * post).
   */
  lemma ClearLeavesOneGreeting(w: Widget, v: ChatView, greeting: string)
    requires WellKeyed(w) && !w.savesEveryPost
    ensures var r := ConversationCleared(w, v, greeting);
      && r.messages == [Said(greeting)] && r.count == 0 && r.blocked == None
      && CountOf(RawItem(r.session, w.keys.count)) == 0
      && w.keys.messages !in r.session && w.keys.blocked !in r.session
  {
    StartGreetsOnlyEmpty(w, InputCleared(Emptied(v, {w.keys.messages, w.keys.count, w.keys.blocked})), greeting);
  }

  // ------------------------------------------------- this widget's rules

  /** Without payment or free consultations the third message is held back, uncounted, and the payment modal left as it was. */
  lemma ThirdMessageHeldBack(v: ChatView, e: Extras, savedAt: string)
    requires ExtrasFit(Config, e) && Accepts(v) && !v.paid && Credits(Config, v.session) == 0 && v.count >= 2
    ensures var r := Sent(Config, v, e, savedAt);
      && r.count == v.count && r.messages == v.messages
      && RawItem(r.session, Config.keys.pending) == Some(Trim(v.input))
      && r.dataModal && r.paymentModal == v.paymentModal
  {
    ConfigFits();
    InterceptHoldsBack(Config, v, e, savedAt);
  }

  /** A reply blocks exactly when the user is unpaid, has no free consultations and has sent three messages. */
  lemma BlocksFromThirdReply(v: ChatView, text: string, id: string, e: Extras, savedAt: string)
    requires ExtrasFit(Config, e) && v.blocked != Some(id)
    ensures Received(Config, v, Reply(text), id, e, savedAt).blocked == Some(id)
        <==> !v.paid && Credits(Config, v.session) == 0 && v.count >= 3
  {
    ConfigFits();
    ReplyBlocksIff(Config, v, text, id, e, savedAt);
  }

  /** The history sent is the non-blank messages, in order, the user's as `user` and the others as `astrologer`. */
  lemma HistoryIsNonBlank(v: ChatView)
    requires Accepts(v) && !Intercepts(Config, v) && (v.paid || Credits(Config, v.session) == 0)
    ensures Requested(Config, v)
         == Some(ChatRequest(Trim(v.input),
                             Some(Turns("astrologer", NonBlankOnly(v.messages)) + [Turn("user", Trim(v.input))])))
  {
    ConfigFits();
    RequestHistory(Config, v);
  }

  /** The premium prize also marks service '3' as paid, which other widgets read. */
  lemma PremiumMarksService(v: ChatView, p: Prize)
    requires p.id == "2"
    ensures var r := PrizeWon(Config, v, p.id, Announcement(p));
      && r.paid && !IsSet(r.blocked) && IsServicePaid(r.session, "3")
      && r.messages == v.messages + [Said(Announcement(p)), Said(PremiumNotice)]
  {
    ConfigFits();
    PremiumPrize(Config, v, Announcement(p));
  }
}
