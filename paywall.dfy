/**
 * The paywall every chat widget of the front end repeats, written once and
 * parameterised by what differs between the widgets: how many messages are
 * free, which storage keys hold the conversation, which service flag counts
 * as paid, whether free consultations exist, what history goes with a
 * request, and which messages are written to storage as soon as they are
 * shown.
 *
 * A widget's state is a `ChatView`: its fields plus the two storage areas,
 * the address bar and where the page was sent. Each function below is one
 * step of a widget method, from the state before to the state after; the
 * class `ChatWidgets.ChatWidget` performs the same steps on its fields and
 * is proved against them.
 *
 * Messages leave the widget in two halves: `Sent` is what happens when the
 * user sends (up to the request to the chat service), `Received` is what
 * happens when the service answers. A timer that fires after an answer is
 * folded into `Received`; the replay of a pending message after an
 * approved return is handed back to the caller.
 */
module Paywall {
  import opened Wrappers
  import opened Text
  import opened Records
  import opened PaymentService

  // ------------------------------------------------------------ the knobs

  /**
   * The session keys of one widget: the paid flag, the conversation, the
   * user-message counter, the blocked reply, the message held back for
   * after checkout, and the free-consultation counter where there is one.
   */
  datatype Keys = Keys(paidFlag: string, messages: string, count: string, blocked: string, pending: string,
                       credits: Option<string>)

  /** What part of the conversation goes with a request to the chat service. */
  datatype HistoryRule =
    | NotSent      // only the new message
    | Everything   // the whole conversation
    | NonBlank     // the messages whose text is not blank
    | LastTen      // `slice(-10)`
    | WithoutLast  // `slice(0, -1)`: all but the message just added

  /**
   * One widget's configuration.
   * - `threshold`: `MESSAGES_BEFORE_PAYMENT`.
   * - `paidServiceId`: the id given to `isServicePaid` and `saveServicePaymentStatus`.
   * - `historyField`, `tags`: the name of the conversation and the extra flat fields of the snapshot.
   * - `assistantRole`: the role the service is told for the widget's own messages.
   * - `savesEveryPost`: every message shown is written to storage at once (an `addMessage` that persists).
   * - `savesUserMessage`: the user's message is written to storage as it is sent.
   * - `clearsOnMalformed`: a conversation that does not parse removes the stored keys before the welcome.
   * - `welcomesWhenAbsent`: no stored conversation leads to a welcome while loading (otherwise the welcome
   *   comes at the end of initialisation, when the conversation is still empty).
   * - `prizeMarksService`: the premium prize also writes the per-service flag.
   * - `closesPaymentModal`: holding a message back or blocking a reply closes the payment modal.
   */
  datatype Widget = Widget(
    threshold: nat, keys: Keys, paidServiceId: string, historyField: string, tags: map<string, string>,
    assistantRole: string, history: HistoryRule,
    savesEveryPost: bool, savesUserMessage: bool, clearsOnMalformed: bool, welcomesWhenAbsent: bool,
    prizeMarksService: bool, closesPaymentModal: bool,
    confirmation: string, creditNoticeHead: string, creditNoticeTail: string, premiumNotice: string)

  /** The text shown while a checkout is still pending. */
  const PendingNotice := "⏳ Tu pago está siendo procesado. Te notificaremos cuando se confirme."
  /** The error set when a checkout comes back rejected. */
  const PaymentFailedText := "El pago no se pudo completar. Por favor, intenta nuevamente."
  /** The key under which the buyer's data is shared between components. */
  const UserDataKey := "userData"

  /** The keys a widget writes in `sessionStorage`. */
  function OwnKeys(w: Widget): set<string>
  {
    {w.keys.paidFlag, w.keys.messages, w.keys.count, w.keys.blocked, w.keys.pending}
    + (if w.keys.credits.Some? then {w.keys.credits.value} else {})
  }

  /** The widget's own keys are pairwise different. */
  predicate WellKeyed(w: Widget)
  {
    var k := w.keys;
    && k.messages != k.count && k.messages != k.blocked && k.messages != k.pending && k.messages != k.paidFlag
    && k.count != k.blocked && k.count != k.pending && k.count != k.paidFlag
    && k.blocked != k.pending && k.blocked != k.paidFlag && k.pending != k.paidFlag
    && (k.credits.Some? ==>
         && k.credits.value != k.messages && k.credits.value != k.count && k.credits.value != k.blocked
         && k.credits.value != k.pending && k.credits.value != k.paidFlag)
  }

  /** The widget's own keys are also different from the keys it shares with other components. */
  predicate ApartFromShared(w: Widget)
  {
    var k := w.keys;
    var flag := ServicePaidKey(w.paidServiceId);
    && UserDataKey != k.messages && UserDataKey != k.count && UserDataKey != k.blocked
    && UserDataKey != k.pending && UserDataKey != k.paidFlag
    && flag != k.messages && flag != k.count && flag != k.blocked && flag != k.pending && flag != k.paidFlag
    && (k.credits.Some? ==> UserDataKey != k.credits.value && flag != k.credits.value)
  }

  // ------------------------------------------------------------ the state

  /** The fields of a chat widget the paywall touches, and the browser. */
  datatype ChatView = ChatView(
    messages: seq<Message>, count: nat, paid: bool, blocked: Option<string>,
    input: string, loading: bool, dataModal: bool, paymentModal: bool, processing: bool,
    paymentError: Option<string>, userData: Option<UserData>, orders: seq<OrderData>,
    session: Storage, local: Storage, location: Url, navigation: Option<string>)

  /**
   * What a widget adds to its snapshot beyond the conversation: nested
   * objects (form data, chart data) and session entries it writes alongside.
   */
  datatype Extras = Extras(attachments: map<string, map<string, string>>, writes: map<string, Stored>)

  const NoExtras := Extras(map[], map[])

  /** The extra session entries stay clear of the widget's own keys. */
  predicate ExtrasFit(w: Widget, e: Extras)
  {
    e.writes.Keys !! OwnKeys(w)
  }

  /**
   * What the widget shows when the chat service has answered: a reply, which
   * is given an id so that it can be blocked, or a notice (a fallback or an
   * error text) with no id, which some widgets persist and others do not.
   */
  datatype Answer = Reply(text: string) | Notice(text: string, persisted: bool)

  /** What the chat service gave back: a body with its `success` flag and text, or an error. */
  datatype ServiceReply = Responded(success: bool, response: string) | Failed

  /**
   * The answer rule the subscribers share: a successful body with text is
   * the reply; an unsuccessful or empty body shows `noAnswer`, and a failed
   * request `failure`, each as a notice that is saved or not as the widget
   * saves its errors.
   */
  function AnswerFrom(reply: ServiceReply, noAnswer: string, failure: string, persisted: bool): (a: Answer)
    ensures a.Reply? <==> reply.Responded? && reply.success && reply.response != ""
    ensures a.Reply? ==> a.text == reply.response
    ensures a.Notice? ==> a.persisted == persisted && a.text == if reply.Failed? then failure else noAnswer
  {
    match reply
    case Responded(success, text) => if success && text != "" then Reply(text) else Notice(noAnswer, persisted)
    case Failed => Notice(failure, persisted)
  }

  /** A prize of the fortune wheel. */
  datatype Prize = Prize(id: string, name: string, icon: string)

  /** One entry of the history sent to the chat service. */
  datatype Turn = Turn(role: string, text: string)

  /** A request to the chat service: the new message and the history that goes with it, if any. */
  datatype ChatRequest = ChatRequest(text: string, history: Option<seq<Turn>>)

  /** `if (blockedMessageId)`: set and not the empty string. */
  predicate IsSet(blocked: Option<string>)
  {
    blocked.Some? && blocked.value != ""
  }

  /** Everything but the conversation and the two storage areas is as it was. */
  predicate Kept(r: ChatView, v: ChatView)
  {
    && r.count == v.count && r.paid == v.paid && r.blocked == v.blocked && r.input == v.input
    && r.loading == v.loading && r.dataModal == v.dataModal && r.paymentModal == v.paymentModal
    && r.processing == v.processing && r.paymentError == v.paymentError && r.userData == v.userData
    && r.orders == v.orders && r.location == v.location && r.navigation == v.navigation
  }

  // ------------------------------------------------------ storage steps

  /** `saveMessagesToSession`. */
  function MessagesSaved(w: Widget, v: ChatView): (r: ChatView)
    ensures r.messages == v.messages && r.local == v.local && Kept(r, v)
  {
    v.(session := v.session[w.keys.messages := Json(MessagesDoc(v.messages))])
  }

  /** `setItem(countKey, userMessageCount.toString())`. */
  function CountSaved(w: Widget, v: ChatView): (r: ChatView)
    ensures r.messages == v.messages && r.local == v.local && Kept(r, v)
  {
    v.(session := v.session[w.keys.count := Text(NatToString(v.count))])
  }

  /** `if (blockedMessageId) setItem(blockedKey, blockedMessageId)`. */
  function BlockedSaved(w: Widget, v: ChatView): (r: ChatView)
    ensures r.messages == v.messages && r.local == v.local && Kept(r, v)
  {
    if IsSet(v.blocked) then v.(session := v.session[w.keys.blocked := Text(v.blocked.value)]) else v
  }

  /** The extra session entries written with the snapshot. */
  function ExtrasWritten(v: ChatView, e: Extras): (r: ChatView)
    ensures r.messages == v.messages && r.local == v.local && Kept(r, v)
  {
    v.(session := v.session + e.writes)
  }

  /** The object a widget hands to `savePaymentData`. */
  function Snapshot(w: Widget, v: ChatView, e: Extras): PaymentSnapshot
  {
    ChatSnapshot(w.historyField, v.messages, v.count, v.userData, v.blocked, w.tags, e.attachments)
  }

  /** `savePaymentData(snapshot)`. */
  function SnapshotSaved(w: Widget, v: ChatView, e: Extras, savedAt: string): (r: ChatView)
    ensures r.messages == v.messages && r.session == v.session && Kept(r, v)
  {
    v.(local := SavedPaymentData(v.local, Snapshot(w, v, e), savedAt))
  }

  /** `saveStateBeforePayment`. */
  function StateSaved(w: Widget, v: ChatView, e: Extras, savedAt: string): (r: ChatView)
    ensures r.messages == v.messages && Kept(r, v)
  {
    SnapshotSaved(w, ExtrasWritten(BlockedSaved(w, CountSaved(w, MessagesSaved(w, v))), e), e, savedAt)
  }

  // ------------------------------------------------------ message steps

  /** `messages.push(m)`. */
  function Pushed(v: ChatView, m: Message): (r: ChatView)
    ensures r.messages == v.messages + [m] && r.session == v.session && r.local == v.local && Kept(r, v)
  {
    v.(messages := v.messages + [m])
  }

  /** A message shown by the widget: pushed, and persisted at once where every post is. */
  function Posted(w: Widget, v: ChatView, m: Message): (r: ChatView)
    ensures r.messages == v.messages + [m] && r.local == v.local && Kept(r, v)
  {
    if w.savesEveryPost then MessagesSaved(w, Pushed(v, m)) else Pushed(v, m)
  }

  /** A message from the widget itself, with no id. */
  function Said(text: string): Message
  {
    Message(false, text, None)
  }

  // ----------------------------------------------------------- credits

  /** `parseInt(getItem(creditsKey) || '0')`, and 0 for a widget without free consultations. */
  function Credits(w: Widget, session: Storage): nat
  {
    match w.keys.credits
    case None => 0
    case Some(key) => CountOf(RawItem(session, key))
  }

  /** Two storage states hold the same free-consultation text. */
  predicate SameCredits(w: Widget, s: Storage, t: Storage)
  {
    w.keys.credits.Some? ==> Untouched(s, t, w.keys.credits.value)
  }

  /** The notice shown when a free consultation is used, with the number left. */
  function CreditNotice(w: Widget, remaining: nat): string
  {
    w.creditNoticeHead + NatToString(remaining) + w.creditNoticeTail
  }

  /** `useFree...Consultation`: one credit less, a notice shown, the conversation saved. */
  function CreditUsed(w: Widget, v: ChatView): ChatView
  {
    if w.keys.credits.Some? && Credits(w, v.session) > 0 then
      var remaining := Credits(w, v.session) - 1;
      var v1 := v.(session := v.session[w.keys.credits.value := Text(NatToString(remaining))]);
      MessagesSaved(w, Posted(w, v1, Said(CreditNotice(w, remaining))))
    else v
  }

  /** `addFree...Consultations(n)`: `n` credits more, and the block lifted when the user has not paid. */
  function CreditsAdded(w: Widget, v: ChatView, n: nat): ChatView
  {
    if w.keys.credits.Some? then
      var v1 := v.(session := v.session[w.keys.credits.value := Text(NatToString(Credits(w, v.session) + n))]);
      if IsSet(v1.blocked) && !v1.paid then Unblocked(w, v1) else v1
    else v
  }

  /** `blockedMessageId = null; removeItem(blockedKey)`. */
  function Unblocked(w: Widget, v: ChatView): (r: ChatView)
    ensures r.blocked == None && r.paid == v.paid && r.messages == v.messages && r.count == v.count
    ensures r.local == v.local && r.location == v.location
  {
    v.(blocked := None, session := v.session - {w.keys.blocked})
  }

  // -------------------------------------------------------------- send

  /** `!currentMessage.trim() || isLoading` does not hold: the send goes ahead. */
  predicate Accepts(v: ChatView)
  {
    Trim(v.input) != [] && !v.loading
  }

  /** The send is held back for checkout: unpaid, no credits, and the free messages used up. */
  predicate Intercepts(w: Widget, v: ChatView)
  {
    Accepts(v) && !v.paid && Credits(w, v.session) == 0 && v.count >= w.threshold - 1
  }

  /**
   * `process...UserMessage(text)` up to the request: the counter goes up and
   * is stored, the message is shown (and stored where the widget does so),
   * the input is emptied and the widget waits for the answer.
   */
  function Processed(w: Widget, v: ChatView, text: string): ChatView
  {
    var v1 := CountSaved(w, v.(count := v.count + 1));
    var v2 := Posted(w, v1, Message(true, text, None));
    var v3 := if w.savesUserMessage then MessagesSaved(w, v2) else v2;
    v3.(input := [], loading := true)
  }

  /** The payment modal after a message is held back or a reply blocked. */
  function PaymentModalAfterHold(w: Widget, open: bool): bool
  {
    open && !w.closesPaymentModal
  }

  /**
   * The interception: the payment modal closed (where the widget does so),
   * the message kept under the pending key, the state saved for after
   * checkout, and (100 ms later) the data modal opened.
   */
  function Intercepted(w: Widget, v: ChatView, text: string, e: Extras, savedAt: string): ChatView
  {
    var v1 := v.(paymentModal := PaymentModalAfterHold(w, v.paymentModal), session := v.session[w.keys.pending := Text(text)]);
    StateSaved(w, v1, e, savedAt).(dataModal := true)
  }

  /** `sendMessage`. */
  function Sent(w: Widget, v: ChatView, e: Extras, savedAt: string): ChatView
  {
    if !Accepts(v) then v
    else if v.paid then Processed(w, v, Trim(v.input))
    else if Credits(w, v.session) > 0 then Processed(w, CreditUsed(w, v), Trim(v.input))
    else if v.count >= w.threshold - 1 then Intercepted(w, v, Trim(v.input), e, savedAt)
    else Processed(w, v, Trim(v.input))
  }

  /** The history the widget sends with a request, built from the conversation after the new message was added. */
  function History(w: Widget, messages: seq<Message>): Option<seq<Turn>>
  {
    match w.history
    case NotSent => None
    case Everything => Some(Turns(w.assistantRole, messages))
    case NonBlank => Some(Turns(w.assistantRole, NonBlankOnly(messages)))
    case LastTen => Some(Turns(w.assistantRole, LastN(messages, 10)))
    case WithoutLast => Some(Turns(w.assistantRole, AllButLast(messages)))
  }

  /** `messages.map(m => ({role: m.isUser ? 'user' : role, message: m.content}))`. */
  function Turns(role: string, messages: seq<Message>): (r: seq<Turn>)
    ensures |r| == |messages|
  {
    seq(|messages|, i requires 0 <= i < |messages| =>
      Turn(if messages[i].fromUser then "user" else role, messages[i].text))
  }

  /** `messages.filter(m => m.content && m.content.trim() !== '')`. */
  function NonBlankOnly(messages: seq<Message>): (r: seq<Message>)
    ensures |r| <= |messages|
  {
    if messages == [] then []
    else (if Trim(messages[0].text) != [] then [messages[0]] else []) + NonBlankOnly(messages[1..])
  }

  /** The request a send makes, if it makes one. */
  function Requested(w: Widget, v: ChatView): Option<ChatRequest>
  {
    if !Accepts(v) || Intercepts(w, v) then None
    else Some(ChatRequest(Trim(v.input), History(w, Sent(w, v, NoExtras, "").messages)))
  }

  // ----------------------------------------------------------- receive

  /** The block test after a reply: unpaid, no credits, and the free messages used up. */
  predicate BlockDue(w: Widget, v: ChatView)
  {
    !v.paid && Credits(w, v.session) == 0 && v.count >= w.threshold
  }

  /**
   * The reply `id` blocked, and (2 s later) the state saved, the payment
   * modal closed where the widget does so, and (100 ms later) the data
   * modal opened.
   */
  function BlockedAt(w: Widget, v: ChatView, id: string, e: Extras, savedAt: string): ChatView
  {
    var v1 := v.(blocked := Some(id), session := v.session[w.keys.blocked := Text(id)]);
    var v2 := StateSaved(w, v1, e, savedAt);
    v2.(paymentModal := PaymentModalAfterHold(w, v2.paymentModal), dataModal := true)
  }

  /** The answer of the chat service, shown; a reply may block the conversation. */
  function Received(w: Widget, v: ChatView, answer: Answer, id: string, e: Extras, savedAt: string): ChatView
  {
    var v1 := v.(loading := false);
    match answer
    case Reply(text) =>
      var v2 := Posted(w, v1, Message(false, text, Some(id)));
      var v3 := if BlockDue(w, v2) then BlockedAt(w, v2, id, e, savedAt) else v2;
      MessagesSaved(w, v3)
    case Notice(text, persisted) =>
      var v2 := Posted(w, v1, Said(text));
      if persisted then MessagesSaved(w, v2) else v2
  }

  /** `isMessageBlocked(message)`. */
  predicate IsBlocked(v: ChatView, m: Message)
  {
    m.id.Some? && v.blocked == m.id && !v.paid
  }

  // -------------------------------------------------- modals and prizes

  /** `onUserDataSubmitted(data)`. */
  function UserDataSubmitted(v: ChatView, u: UserData): ChatView
  {
    v.(userData := Some(u), session := v.session[UserDataKey := Json(UserDoc(u))], dataModal := false)
  }

  /** `cancelPayment`. */
  function PaymentCancelled(v: ChatView): ChatView
  {
    v.(paymentModal := false, processing := false, paymentError := None)
  }

  /** The premium prize: paid, the flags written, the block lifted, a notice shown and saved. */
  function PremiumGranted(w: Widget, v: ChatView): (r: ChatView)
    ensures r.paid && !IsSet(r.blocked) && r.count == v.count
    ensures r.messages == v.messages + [Said(w.premiumNotice)]
  {
    MessagesSaved(w, Posted(w, PremiumMarked(w, v), Said(w.premiumNotice)))
  }

  /** The paid flags written and the block lifted. */
  function PremiumMarked(w: Widget, v: ChatView): (r: ChatView)
    ensures r.paid && !IsSet(r.blocked) && r.count == v.count && r.messages == v.messages
  {
    var s1 := v.session[w.keys.paidFlag := Text("true")];
    var s2 := if w.prizeMarksService then MarkedServicePaid(s1, w.paidServiceId, true) else s1;
    var v1 := v.(paid := true, session := s2);
    if IsSet(v1.blocked) then Unblocked(w, v1) else v1
  }

  /**
   * `onPrizeWon(prize)`: the prize announced and saved, then prize '1' gives
   * three free consultations, prize '2' premium access, any other nothing.
   */
  function PrizeWon(w: Widget, v: ChatView, prizeId: string, announcement: string): ChatView
  {
    var v1 := MessagesSaved(w, Posted(w, v, Said(announcement)));
    if prizeId == "1" then CreditsAdded(w, v1, 3)
    else if prizeId == "2" then PremiumGranted(w, v1)
    else v1
  }

  // ------------------------------------------------------- initialisation

  /** The paid state a widget starts from: its own flag, or the per-service flag. */
  function Opened(w: Widget, v: ChatView): ChatView
  {
    v.(paid := IsTrueItem(v.session, w.keys.paidFlag) || IsServicePaid(v.session, w.paidServiceId))
  }

  /** An approved return: paid, both flags written, the block lifted. */
  function MarkedPaid(w: Widget, v: ChatView): ChatView
  {
    var s := MarkedServicePaid(v.session[w.keys.paidFlag := Text("true")], w.paidServiceId, true);
    Unblocked(w, v.(paid := true, session := s))
  }

  /**
   * What an approved return takes back from the snapshot: the conversation
   * when the snapshot holds a non-empty one under the widget's field, the
   * counter when it holds one, the buyer when it holds one.
   */
  function Restored(w: Widget, v: ChatView): (r: ChatView)
    ensures r.paid == v.paid && r.blocked == v.blocked && r.local == v.local && r.location == v.location
  {
    match GetPaymentData(v.local)
    case None => v
    case Some(record) =>
      var saved := record.snapshot;
      var history := saved.HistoryUnder(w.historyField);
      var user := saved.SavedUser();
      v.(messages := if history.Some? then history.value else v.messages,
         count := if saved.SavedCount().Some? then saved.SavedCount().value else v.count,
         userData := if user.Some? then user else v.userData,
         session := if user.Some? then v.session[UserDataKey := Json(UserDoc(user.value))] else v.session)
  }

  /** `clearPaymentData(); cleanPaymentParamsFromUrl()`. */
  function PaymentCleared(v: ChatView): ChatView
  {
    UrlCleaned(v.(local := ClearedPaymentData(v.local)))
  }

  /** `cleanPaymentParamsFromUrl()`. */
  function UrlCleaned(v: ChatView): (r: ChatView)
    ensures r.paid == v.paid && r.blocked == v.blocked && r.messages == v.messages && r.count == v.count
    ensures r.session == v.session
  {
    v.(location := CleanedUrl(v.location))
  }

  /** The confirmation shown and the conversation saved. */
  function Confirmed(w: Widget, v: ChatView): ChatView
  {
    MessagesSaved(w, Posted(w, v, Said(w.confirmation)))
  }

  /** The message held back for checkout, taken out of storage to be replayed. */
  function PendingTaken(w: Widget, v: ChatView): (ChatView, Option<string>)
  {
    if HasItem(v.session, w.keys.pending) then
      (v.(session := v.session - {w.keys.pending}), RawItem(v.session, w.keys.pending))
    else (v, None)
  }

  /** The approved branch of `ngOnInit`, up to its `return`. */
  function ApprovedReturn(w: Widget, v: ChatView): (ChatView, Option<string>)
  {
    PendingTaken(w, Confirmed(w, PaymentCleared(Restored(w, MarkedPaid(w, v)))))
  }

  /** The query is a return from checkout with an approved payment. */
  predicate ApprovedQuery(q: map<string, string>)
  {
    HasPaymentParams(q) && CheckPaymentStatus(q).isPaid && CheckPaymentStatus(q).status == Some(Approved)
  }

  /** The pending and rejected branches as most widgets write them: no loading first. */
  function Returned(w: Widget, v: ChatView): (r: ChatView)
    ensures r.paid == v.paid && r.blocked == v.blocked && r.count == v.count
  {
    var status := CheckPaymentStatus(v.location.query).status;
    if !HasPaymentParams(v.location.query) then v
    else if status == Some(Pending) then UrlCleaned(Posted(w, v, Said(PendingNotice)))
    else if status == Some(Rejected) then UrlCleaned(v.(paymentError := Some(PaymentFailedText)))
    else v
  }

  /** `JSON.parse(sessionStorage.getItem('userData'))`, null when it does not parse. */
  function UserLoaded(v: ChatView): (r: ChatView)
    ensures r.paid == v.paid && r.blocked == v.blocked && r.messages == v.messages && r.count == v.count
    ensures r.session == v.session && r.location == v.location
  {
    match ReadUser(v.session, UserDataKey)
    case Absent => v
    case Malformed => v.(userData := None)
    case Parsed(u) => v.(userData := Some(u))
  }

  /** `savedBlockedMessageId || null`. */
  function BlockedRead(session: Storage, key: string): Option<string>
  {
    if HasItem(session, key) then RawItem(session, key) else None
  }

  /** `clearSessionData`: the conversation, the counter and the block removed. */
  function SessionCleared(w: Widget, v: ChatView): (r: ChatView)
    ensures r.messages == v.messages && Kept(r, v)
  {
    v.(session := v.session - {w.keys.messages, w.keys.count, w.keys.blocked})
  }

  /** The welcome: the counter reset and stored as "0", the greeting shown. */
  function Welcomed(w: Widget, v: ChatView, greeting: string): (r: ChatView)
    ensures r.messages == v.messages + [Said(greeting)] && r.count == 0
    ensures r.paid == v.paid && r.blocked == v.blocked
  {
    Posted(w, CountSaved(w, v.(count := 0)), Said(greeting))
  }

  /** Loading the stored conversation, with the welcome when there is none. */
  function Loaded(w: Widget, v: ChatView, greeting: string): (r: ChatView)
    ensures r.paid == v.paid
  {
    match ReadMessages(v.session, w.keys.messages)
    case Parsed(ms) =>
      v.(messages := ms, count := CountOf(RawItem(v.session, w.keys.count)),
         blocked := BlockedRead(v.session, w.keys.blocked))
    case Malformed => Welcomed(w, if w.clearsOnMalformed then SessionCleared(w, v) else v, greeting)
    case Absent => if w.welcomesWhenAbsent then Welcomed(w, v, greeting) else v
  }

  /** `if (paid && blockedMessageId)` the block is lifted. */
  function UnblockedIfPaid(w: Widget, v: ChatView): (r: ChatView)
    ensures r.paid == v.paid && r.messages == v.messages && r.count == v.count
    ensures r.paid ==> !IsSet(r.blocked)
  {
    if v.paid && IsSet(v.blocked) then Unblocked(w, v) else v
  }

  /** The end of `ngOnInit` after the payment branches. */
  function Settled(w: Widget, v: ChatView, greeting: string): (r: ChatView)
    ensures r.paid == v.paid
  {
    var v1 := UserLoaded(v);
    var v2 := if v1.messages == [] then Loaded(w, v1, greeting) else v1;
    var v3 := UnblockedIfPaid(w, v2);
    if !w.welcomesWhenAbsent && v3.messages == [] then Welcomed(w, v3, greeting) else v3
  }

  /**
   * `ngOnInit` as seven of the eight widgets write it; the result pairs the
   * state with the message to replay 2 s later, if any.
   */
  function Initialised(w: Widget, v: ChatView, greeting: string): (ChatView, Option<string>)
  {
    var v1 := Opened(w, v);
    if ApprovedQuery(v1.location.query) then ApprovedReturn(w, v1)
    else (Settled(w, Returned(w, v1), greeting), None)
  }

  /**
   * `ngOnInit` with the pending branch written as the zodiac-information
   * widget writes it: the stored conversation is loaded before the notice
   * is shown and saved.
   */
  function InitialisedLoadingFirst(w: Widget, v: ChatView, greeting: string): (ChatView, Option<string>)
  {
    var v1 := Opened(w, v);
    var q := v1.location.query;
    if ApprovedQuery(q) then ApprovedReturn(w, v1)
    else if HasPaymentParams(q) && CheckPaymentStatus(q).status == Some(Pending) then
      (UrlCleaned(MessagesSaved(w, Posted(w, Settled(w, v1, greeting), Said(PendingNotice)))), None)
    else (Settled(w, Returned(w, v1), greeting), None)
  }

  // ------------------------------------------------- checkout from the widget

  const NoBuyerText := "No se encontraron datos del cliente. Por favor, complete el formulario primero."
  const CheckoutFailedText := "Error al inicializar el pago. Intenta nuevamente."
  const NoPaymentUrlText := "URL de pago no válida"
  /** The message of the `TypeError` a V8 engine raises when `firstName` is read from `null`. */
  const NullBuyerText := "Cannot read properties of null (reading 'firstName')"

  /**
   * `promptForPayment`: the payment modal opened; the buyer read from
   * storage when the widget has none; without a buyer e-mail, the data form
   * instead.
   */
  function PaymentPrompted(v: ChatView): ChatView
  {
    var v1 := v.(paymentModal := true, paymentError := None, processing := false);
    var v2 := if v1.userData.None? then UserLoaded(v1) else v1;
    if v2.userData.None? || v2.userData.value.email == "" then
      v2.(paymentError := Some(NoBuyerText), paymentModal := false, dataModal := true)
    else v2
  }

  /** The order a widget posts itself: its service's figures and the buyer, with `'Usuario'`/`'Ecos'` for empty names. */
  function WidgetOrder(service: ServiceConfig, buyer: UserData): OrderInput
  {
    OrderInput(Some(service.amount), Some(service.serviceName), Some(service.serviceId),
               Some(OrElse(buyer.firstName, "Usuario")), Some(OrElse(buyer.lastName, "Ecos")), Some(buyer.email),
               Some("services"), Some(service.description))
  }

  /** The first lines of `handlePaymentSubmit`: the widget busy, no error. */
  function CheckoutStarted(v: ChatView): (r: ChatView)
    ensures r.messages == v.messages && r.count == v.count && r.paid == v.paid && r.userData == v.userData && r.blocked == v.blocked
    ensures r.session == v.session && r.local == v.local && r.orders == v.orders && r.navigation == v.navigation
  {
    v.(processing := true, paymentError := None)
  }

  /** The order posted for the buyer. */
  function OrderSent(v: ChatView, service: ServiceConfig, buyer: UserData): (r: ChatView)
    ensures r.orders == v.orders + [WithDefaults(WidgetOrder(service, buyer))]
    ensures r.messages == v.messages && r.local == v.local && r.processing == v.processing
    ensures r.paymentError == v.paymentError && r.navigation == v.navigation && r.count == v.count && r.paid == v.paid
    ensures r.session == v.session && r.userData == v.userData
  {
    v.(orders := v.orders + [WithDefaults(WidgetOrder(service, buyer))])
  }

  /** The `catch` of `handlePaymentSubmit`: `error.message` or a fixed text, and the widget no longer busy. */
  function CheckoutFailed(v: ChatView, message: string): (r: ChatView)
    ensures !r.processing && r.paymentError.Some?
    ensures r.messages == v.messages && r.local == v.local && r.orders == v.orders && r.navigation == v.navigation
    ensures r.count == v.count && r.paid == v.paid && r.session == v.session
  {
    v.(paymentError := Some(OrElse(message, CheckoutFailedText)), processing := false)
  }

  /** `window.location.href = url`. */
  function Redirected(v: ChatView, url: string): (r: ChatView)
    ensures r.navigation == Some(url)
    ensures r.messages == v.messages && r.local == v.local && r.orders == v.orders && r.processing == v.processing
    ensures r.paymentError == v.paymentError && r.count == v.count && r.paid == v.paid && r.session == v.session
  {
    v.(navigation := Some(url))
  }

  /**
   * `handlePaymentSubmit`: the snapshot saved, then the order posted and the
   * page sent to checkout. `outcome` is what `createOrder` answers, or the
   * message of the error it throws; reading the names of a missing buyer
   * throws before the order is posted.
   */
  function PaymentSubmitted(w: Widget, v: ChatView, service: ServiceConfig, outcome: Result<OrderReply, string>,
                            savedAt: string): ChatView
  {
    var v1 := SnapshotSaved(w, CheckoutStarted(v), NoExtras, savedAt);
    if v1.userData.None? then CheckoutFailed(v1, NullBuyerText)
    else
      var v2 := OrderSent(v1, service, v1.userData.value);
      match outcome
      case Failure(message) => CheckoutFailed(v2, message)
      case Success(reply) =>
        if CheckoutUrl(reply) == "" then CheckoutFailed(v2, NoPaymentUrlText)
        else Redirected(v2, CheckoutUrl(reply))
  }

  // ---------------------------------------------------------------- resets

  /** The conversation emptied, the counter zeroed and the block lifted, with `removed` taken out of storage. */
  function Emptied(v: ChatView, removed: set<string>): ChatView
  {
    v.(messages := [], count := 0, blocked := None, session := v.session - removed)
  }

  /** `currentMessage = ''; isLoading = false`. */
  function InputCleared(v: ChatView): ChatView
  {
    v.(input := [], loading := false)
  }

  /** Both modals closed and the payment state reset. */
  function ModalsClosed(v: ChatView): ChatView
  {
    v.(paymentModal := false, dataModal := false, processing := false, paymentError := None)
  }
}
