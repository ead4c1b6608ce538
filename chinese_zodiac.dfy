/**
 * The horoscope widget (`zodiaco-chino`): the paywall with three free
 * messages and no free consultations, the whole conversation sent as
 * history, a data form whose question opens the consultation, and three
 * resets. The form is the component's `userForm` with its completion and
 * visibility flags, kept in a class of its own beside the chat widget.
 */
module ChineseZodiac {
  import opened Wrappers
  import opened Text
  import opened Records
  import opened PaymentService
  import opened Paywall
  import opened PaywallLaws
  import opened PaywallReturns
  import opened ChatWidgets

  const Confirmation := "✨ **¡Pago confirmado exitosamente!** ✨\n\n🔮 Ahora tienes acceso completo e ilimitado a mis servicios de astrología y horóscopo.\n\nLas estrellas y los signos del zodiaco se revelan ante ti. Puedes preguntarme lo que desees sobre tu signo, compatibilidad, predicciones y todos los secretos que el cosmos guarda para ti.\n\n¿Qué aspecto de tu horóscopo quieres explorar?"

  /** `initializeHoroscopeWelcomeMessage`'s text, the greeting the steps below are given. */
  const Welcome := "¡Bienvenido al Reino de las Estrellas! 🔮✨\n\nSoy la Astróloga María, guía celestial de los signos del zodiaco. Durante décadas he estudiado las influencias de los planetas y constelaciones que guían nuestro destino.\n\nCada persona nace bajo la protección de un signo zodiacal que influye en su personalidad, su destino y su camino de vida. Para revelar los secretos de tu horóscopo y las influencias celestiales, necesito tu fecha de nacimiento.\n\nLos doce signos (Aries, Tauro, Géminis, Cáncer, Leo, Virgo, Libra, Escorpio, Sagitario, Capricornio, Acuario y Piscis) tienen sabiduría ancestral que compartir.\n\n¿Estás listo para descubrir lo que las estrellas revelan sobre tu destino? 🌙"

  /** `horoscopeServiceConfig`. */
  const Service := ServiceConfig("8", "Horóscopo - Zodiaco Chino", 18000, "Acceso completo a lecturas astrológicas ilimitadas")

  const Config := Widget(
    4,
    Keys("hasUserPaidForHoroscope_horoskop", "horoscopeMessages", "horoscopeUserMessageCount",
         "horoscopeBlockedMessageId", "pendingHoroscopeMessage", None),
    "8", "conversationHistory", map[],
    "master", Everything,
    true, false, true, false, false, true,
    Confirmation, "", "", "")

  /** The widget's keys are apart from each other and from the shared ones. */
  lemma ConfigFits()
    ensures WellKeyed(Config) && ApartFromShared(Config) && ExtrasFit(Config, NoExtras)
  {
  }

  // ------------------------------------------------------------ the form

  /** The question the form starts with, and is reset to. */
  const DefaultQuestion := "¿Qué puedes decirme sobre mi signo zodiacal y horóscopo?"
  /** What `startConsultation` sends when the question is empty. */
  const OpeningText := "¡Hola! Me gustaría saber más sobre mi signo zodiacal y horóscopo."

  /** The controls of `userForm` with the values it is built and reset with. */
  const DefaultValues: map<string, string> :=
    map["fullName" := "", "birthYear" := "", "birthDate" := "", "initialQuestion" := DefaultQuestion]

  /** The form's values, `isFormCompleted` and `showDataForm`. */
  datatype FormState = FormState(values: map<string, string>, completed: bool, shown: bool)

  const FreshForm := FormState(DefaultValues, false, true)

  /** `userForm.valid`: the birth year is given and lies between 1900 and 2024. */
  predicate FormValid(values: map<string, string>)
  {
    "birthYear" in values && ParseNat(values["birthYear"]).Some?
    && 1900 <= ParseNat(values["birthYear"]).value <= 2024
  }

  /** A fresh or reset form cannot start a consultation: its birth year is empty. */
  lemma FreshFormInvalid()
    ensures !FormValid(FreshForm.values)
  {
    assert FreshForm.values["birthYear"] == "";
  }

  /** `patchValue(saved)`: every control the saved object names takes its value; the others keep theirs. */
  function Patched(values: map<string, string>, saved: map<string, string>): (r: map<string, string>)
    ensures r.Keys == values.Keys
    ensures forall k :: k in values && k !in saved ==> r[k] == values[k]
    ensures forall k :: k in values && k in saved ==> r[k] == saved[k]
  {
    map k | k in values :: if k in saved then saved[k] else values[k]
  }

  /** The form part of an approved return: the saved form data, if any, patched in; the form completed and hidden. */
  function FormRestored(f: FormState, record: Option<PaymentRecord>): FormState
  {
    if record.Some? && record.value.snapshot.Attachment("formData").Some? then
      FormState(Patched(f.values, record.value.snapshot.Attachment("formData").value), true, false)
    else f
  }

  /** What the widget adds to the snapshot it saves before checkout: `formData: userForm.value`. */
  function FormExtras(values: map<string, string>): Extras
  {
    Extras(map["formData" := values], map[])
  }

  class HoroscopeForm {
    var values: map<string, string>
    var completed: bool
    var shown: bool

    function State(): FormState
      reads this
    {
      FormState(values, completed, shown)
    }

    /** The form as the component builds it: default values, not completed, shown. */
    constructor()
      ensures State() == FreshForm
    {
      values, completed, shown := DefaultValues, false, true;
    }

    /** The user edits one control. */
    method Edit(control: string, value: string)
      modifies this
      requires control in values
      ensures State() == old(State()).(values := old(values)[control := value])
    {
      values := values[control := value];
    }

    /** `userForm.reset(defaults)`, `isFormCompleted = false`, `showDataForm = true`. */
    method Reset()
      modifies this
      ensures State() == FreshForm
    {
      values, completed, shown := DefaultValues, false, true;
    }

    /** A consultation answered: completed and hidden. */
    method Complete()
      modifies this
      ensures State() == old(State()).(completed := true, shown := false)
    {
      completed, shown := true, false;
    }

    /** `toggleDataForm`. */
    method Toggle()
      modifies this
      ensures State() == old(State()).(shown := !old(shown))
    {
      shown := !shown;
    }

    /** `startChatWithoutForm`. */
    method Hide()
      modifies this
      ensures State() == old(State()).(shown := false)
    {
      shown := false;
    }

    /** The form data of the approved return. */
    method Restore(record: Option<PaymentRecord>)
      modifies this
      ensures State() == FormRestored(old(State()), record)
    {
      if record.Some? && record.value.snapshot.Attachment("formData").Some? {
        values := Patched(values, record.value.snapshot.Attachment("formData").value);
        completed, shown := true, false;
      }
    }
  }

  /**
   * The form the user filled in when a message was held back comes back as
   * it was after an approved return, completed and hidden, whatever the
   * form held in between.
   */
  lemma FormSurvivesCheckout(w: Widget, v: ChatView, text: string, values: map<string, string>, savedAt: string, f: FormState)
    requires f.values.Keys == values.Keys
    ensures FormRestored(f, GetPaymentData(Intercepted(w, v, text, FormExtras(values), savedAt).local))
         == FormState(values, true, false)
  {
    var v1 := v.(paymentModal := PaymentModalAfterHold(w, v.paymentModal), session := v.session[w.keys.pending := Text(text)]);
    var v2 := ExtrasWritten(BlockedSaved(w, CountSaved(w, MessagesSaved(w, v1))), FormExtras(values));
    var snapshot := Snapshot(w, v2, FormExtras(values));
    SaveThenGet(v2.local, snapshot, savedAt);
    assert snapshot.Attachment("formData") == Some(values);
    assert Patched(f.values, values) == values;
  }

  // ------------------------------------------------------- the consultation

  /** The question `startConsultation` sends: the form's, or the opening text when it is empty. */
  function Question(values: map<string, string>): (q: string)
    ensures q != ""
    ensures "initialQuestion" in values && values["initialQuestion"] != "" ==> q == values["initialQuestion"]
  {
    if "initialQuestion" in values && values["initialQuestion"] != "" then values["initialQuestion"] else OpeningText
  }

  /** The consultation goes ahead: the form is valid and no answer is awaited. */
  predicate Starts(v: ChatView, values: map<string, string>)
  {
    FormValid(values) && !v.loading
  }

  /**
   * `startConsultation` up to the request: the widget waits, the question is
   * shown and saved, and the counter goes up and is stored.
   */
  function ConsultationStarted(w: Widget, v: ChatView, values: map<string, string>): ChatView
  {
    if Starts(v, values) then
      var v1 := Posted(w, v.(loading := true), Message(true, Question(values), None));
      CountSaved(w, v1.(count := v.count + 1))
    else v
  }

  /** The request `startConsultation` makes: the question and the conversation it ends. */
  function ConsultationRequest(w: Widget, v: ChatView, values: map<string, string>): Option<ChatRequest>
  {
    if Starts(v, values) then
      Some(ChatRequest(Question(values), History(w, v.messages + [Message(true, Question(values), None)])))
    else None
  }

  /** `handleError(message)`: the text shown. */
  function ErrorText(message: string): string
  {
    "Lo siento, " + message + ". Por favor, intenta de nuevo."
  }

  const NoAnswerText := "Error en la respuesta de la astróloga"
  const ConnectionPrefix := "Error al conectar con la astróloga: "

  /**
   * The subscribers of `chatWithMaster`: a successful non-empty text is the
   * reply; an unsuccessful or empty body and an error (whose detail is part
   * of the text) each become an error message, saved like every message.
   */
  function AnswerOf(reply: ServiceReply, detail: string): (a: Answer)
    ensures a.Reply? <==> reply.Responded? && reply.success && reply.response != ""
    ensures a.Reply? ==> a.text == reply.response
    ensures a.Notice? ==> a.persisted && a.text == ErrorText(if reply.Failed? then ConnectionPrefix + detail else NoAnswerText)
  {
    AnswerFrom(reply, ErrorText(NoAnswerText), ErrorText(ConnectionPrefix + detail), true)
  }

  /** The answer to the consultation: shown without an id, so never blockable, and saved. */
  function ConsultationAnswered(w: Widget, v: ChatView, answer: Answer): ChatView
  {
    var v1 := Posted(w, v.(loading := false), Said(answer.text));
    if answer.Reply? then MessagesSaved(w, v1) else v1
  }

  /** A reply completes and hides the form; an error leaves it. */
  function FormAnswered(f: FormState, answer: Answer): FormState
  {
    if answer.Reply? then f.(completed := true, shown := false) else f
  }

  /**
   * The consultation does not consult the paywall: whatever the counter and
   * the paid state, a valid form sends its question, counts it and shows it,
   * and nothing is held back.
   */
  lemma ConsultationIgnoresPaywall(w: Widget, v: ChatView, values: map<string, string>)
    requires WellKeyed(w) && Starts(v, values)
    ensures var r := ConsultationStarted(w, v, values);
      && r.messages == v.messages + [Message(true, Question(values), None)]
      && r.count == v.count + 1 && r.loading && r.paid == v.paid && r.blocked == v.blocked
      && CountOf(RawItem(r.session, w.keys.count)) == v.count + 1
      && Untouched(r.session, v.session, w.keys.pending)
      && r.dataModal == v.dataModal
  {
    var v1 := Posted(w, v.(loading := true), Message(true, Question(values), None));
    PostedTouchesOnlyMessages(w, v.(loading := true), Message(true, Question(values), None), w.keys.pending);
    CountSavedTouchesOnly(w, v1.(count := v.count + 1), w.keys.pending);
    CountOfToString(v.count + 1);
  }

  /** The answer never sets a block, leaves the counter, and is saved with the conversation. */
  lemma ConsultationAnswerNeverBlocks(w: Widget, v: ChatView, answer: Answer)
    requires WellKeyed(w) && w.savesEveryPost
    ensures var r := ConsultationAnswered(w, v, answer);
      && r.messages == v.messages + [Said(answer.text)] && !r.loading
      && r.blocked == v.blocked && r.count == v.count && r.paid == v.paid
      && ReadMessages(r.session, w.keys.messages) == Parsed(r.messages)
  {
  }

  method StartConsultation(c: ChatWidget, f: HoroscopeForm) returns (request: Option<ChatRequest>)
    modifies c, c.browser
    ensures c.View() == ConsultationStarted(c.widget, old(c.View()), f.values)
    ensures request == ConsultationRequest(c.widget, old(c.View()), f.values)
  {
    request := ConsultationRequest(c.widget, c.View(), f.values);
    if FormValid(f.values) && !c.loading {
      c.loading := true;
      c.Post(Message(true, Question(f.values), None));
      c.CountMessage();
      c.SaveCount();
    }
  }

  method AnswerConsultation(c: ChatWidget, f: HoroscopeForm, answer: Answer)
    modifies c, c.browser, f
    ensures c.View() == ConsultationAnswered(c.widget, old(c.View()), answer)
    ensures f.State() == FormAnswered(old(f.State()), answer)
  {
    c.StopLoading();
    c.Post(Said(answer.text));
    if answer.Reply? {
      f.Complete();
      c.SaveMessages();
    }
  }

  // ------------------------------------------------------------ resetting

  /** The three keys `clearHoroscopeSessionData` removes. */
  function ConversationKeys(w: Widget): set<string>
  {
    {w.keys.messages, w.keys.count, w.keys.blocked}
  }

  /** `clearChat`: input, waiting and conversation cleared, the three keys removed, the welcome shown. */
  function ChatCleared(w: Widget, v: ChatView, greeting: string): ChatView
  {
    Welcomed(w, Emptied(InputCleared(v), ConversationKeys(w)), greeting)
  }

  /**
   * `resetConsultation`: the same, but the widget may still be waiting for
   * an answer, and the form is reset. Paid or not, the same three keys go.
   */
  function ConsultationReset(w: Widget, v: ChatView, greeting: string): ChatView
  {
    Welcomed(w, Emptied(v.(input := []), ConversationKeys(w)), greeting)
  }

  /** `resetChat`: `clearChat` plus the modals closed and the pending message dropped; the form is reset. */
  function ChatReset(w: Widget, v: ChatView, greeting: string): ChatView
  {
    Welcomed(w, ModalsClosed(Emptied(InputCleared(v), ConversationKeys(w) + {w.keys.pending})), greeting)
  }

  method ClearChat(c: ChatWidget, greeting: string)
    modifies c, c.browser
    ensures c.View() == ChatCleared(c.widget, old(c.View()), greeting)
  {
    c.ClearInput();
    c.Restart(ConversationKeys(c.widget), greeting);
  }

  method ResetConsultation(c: ChatWidget, f: HoroscopeForm, greeting: string)
    modifies c, c.browser, f
    ensures c.View() == ConsultationReset(c.widget, old(c.View()), greeting)
    ensures f.State() == FreshForm
  {
    c.input := [];
    c.Empty(ConversationKeys(c.widget));
    f.Reset();
    c.Welcome(greeting);
  }

  method ResetChat(c: ChatWidget, f: HoroscopeForm, greeting: string)
    modifies c, c.browser, f
    ensures c.View() == ChatReset(c.widget, old(c.View()), greeting)
    ensures f.State() == FreshForm
  {
    c.ClearInput();
    c.Empty(ConversationKeys(c.widget) + {c.widget.keys.pending});
    c.CloseModals();
    f.Reset();
    c.Welcome(greeting);
  }

  /** The facts every reset leaves: one welcome, read back from storage; a zero counter, stored; no block. */
  predicate OneWelcome(w: Widget, v: ChatView, r: ChatView, greeting: string)
  {
    && r.messages == [Said(greeting)] && r.count == 0 && r.blocked == None && r.paid == v.paid
    && CountOf(RawItem(r.session, w.keys.count)) == 0
    && ReadMessages(r.session, w.keys.messages) == Parsed([Said(greeting)])
    && w.keys.blocked !in r.session
  }

  /** `clearChat` leaves one welcome and nothing loading. */
  lemma ClearLeavesOneWelcome(w: Widget, v: ChatView, greeting: string)
    requires WellKeyed(w) && w.savesEveryPost
    ensures var r := ChatCleared(w, v, greeting); OneWelcome(w, v, r, greeting) && r.input == [] && !r.loading
  {
    ResetLeavesOneWelcome(w, InputCleared(v), ConversationKeys(w), greeting);
  }

  /** `resetConsultation` leaves one welcome, but a pending answer is still awaited. */
  lemma ResetConsultationLeavesOneWelcome(w: Widget, v: ChatView, greeting: string)
    requires WellKeyed(w) && w.savesEveryPost
    ensures var r := ConsultationReset(w, v, greeting); OneWelcome(w, v, r, greeting) && r.input == [] && r.loading == v.loading
  {
    ResetLeavesOneWelcome(w, v.(input := []), ConversationKeys(w), greeting);
  }

  /** `resetChat` leaves one welcome, no modal, no pending message. */
  lemma ResetChatLeavesOneWelcome(w: Widget, v: ChatView, greeting: string)
    requires WellKeyed(w) && w.savesEveryPost
    ensures var r := ChatReset(w, v, greeting);
      && OneWelcome(w, v, r, greeting) && r.input == [] && !r.loading
      && !r.dataModal && !r.paymentModal && !r.processing && r.paymentError == None
      && w.keys.pending !in r.session
  {
    var v0 := ModalsClosed(Emptied(InputCleared(v), ConversationKeys(w) + {w.keys.pending}));
    assert ModalsClosed(Emptied(InputCleared(v), ConversationKeys(w) + {w.keys.pending}))
        == Emptied(ModalsClosed(InputCleared(v)), ConversationKeys(w) + {w.keys.pending});
    ResetLeavesOneWelcome(w, ModalsClosed(InputCleared(v)), ConversationKeys(w) + {w.keys.pending}, greeting);
  }

  // ---------------------------------------------------------- initialising

  /** `ngOnInit`'s form part: the approved return patches the saved form data in. */
  function InitialForm(v: ChatView, f: FormState): FormState
  {
    if ApprovedQuery(v.location.query) then FormRestored(f, GetPaymentData(v.local)) else f
  }

  /** `ngOnInit`; returns the message to replay 2 s later, if any. */
  method Init(c: ChatWidget, f: HoroscopeForm, greeting: string) returns (replay: Option<string>)
    modifies c, c.browser, f
    ensures (c.View(), replay) == Initialised(c.widget, old(c.View()), greeting)
    ensures f.State() == InitialForm(old(c.View()), old(f.State()))
  {
    var record := GetPaymentData(c.browser.local);
    var approved := ApprovedQuery(c.browser.location.query);
    replay := c.Init(greeting);
    if approved {
      f.Restore(record);
    }
  }

  /** After `ngOnInit` the conversation is never empty: the confirmation, the stored conversation or the welcome. */
  lemma InitShowsSomething(w: Widget, v: ChatView, greeting: string)
    requires !w.welcomesWhenAbsent
    ensures Initialised(w, v, greeting).0.messages != []
  {
    var v1 := Opened(w, v);
    if ApprovedQuery(v1.location.query) {
      var v2 := PaymentCleared(Restored(w, MarkedPaid(w, v1)));
      assert Confirmed(w, v2).messages == v2.messages + [Said(w.confirmation)];
    }
  }

  // ------------------------------------------------- this widget's rules

  /**
   * Unpaid, the fourth message is held back: stored as pending, nothing
   * counted or shown, the payment modal closed and the data modal opened.
   */
  lemma FourthMessageHeldBack(v: ChatView, values: map<string, string>, savedAt: string)
    requires Accepts(v) && !v.paid && v.count >= 3
    ensures var r := Sent(Config, v, FormExtras(values), savedAt);
      && r.count == v.count && r.messages == v.messages
      && RawItem(r.session, Config.keys.pending) == Some(Trim(v.input))
      && r.dataModal && !r.paymentModal
  {
    ConfigFits();
    InterceptHoldsBack(Config, v, FormExtras(values), savedAt);
  }

  /**
   * Where `sendMessage` holds the fourth message back, `startConsultation`
   * with a valid form goes ahead and counts its question.
   */
  lemma ConsultationBypassesHold(v: ChatView, values: map<string, string>, savedAt: string)
    requires Accepts(v) && !v.paid && v.count >= 3 && FormValid(values)
    ensures Sent(Config, v, FormExtras(values), savedAt).count == v.count
    ensures ConsultationStarted(Config, v, values).count == v.count + 1
  {
    FourthMessageHeldBack(v, values, savedAt);
  }

  /** A reply blocks exactly when the user is unpaid and has sent four messages. */
  lemma BlocksFromFourthReply(v: ChatView, text: string, id: string, values: map<string, string>, savedAt: string)
    requires v.blocked != Some(id)
    ensures Received(Config, v, Reply(text), id, FormExtras(values), savedAt).blocked == Some(id)
        <==> !v.paid && v.count >= 4
  {
    ConfigFits();
    ReplyBlocksIff(Config, v, text, id, FormExtras(values), savedAt);
  }

  /** The whole conversation, the new message last, is sent as history, the widget's messages as `master`. */
  lemma HistoryIsEverything(v: ChatView)
    requires Accepts(v) && !Intercepts(Config, v)
    ensures Requested(Config, v)
         == Some(ChatRequest(Trim(v.input), Some(Turns("master", v.messages + [Message(true, Trim(v.input), None)]))))
  {
    ConfigFits();
    RequestedAfterAdding(Config, v);
  }
}
