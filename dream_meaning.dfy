/**
 * The dream interpreter (`significado-suenos`): the paywall with three free
 * messages, the conversation before the new message sent as history, an
 * unsuccessful or empty answer shown as an error that is neither saved nor
 * blocked, and the message box whose height `adjustTextareaHeight` keeps
 * between 45 and 120 pixels. Its `newConsultation` is the one of the
 * `Consultations` module.
 */
module DreamMeaning {
  import opened Wrappers
  import opened Text
  import opened Records
  import opened PaymentService
  import opened Paywall
  import opened PaywallLaws
  import opened PaywallReturns
  import opened ChatWidgets
  import opened Consultations

  const Confirmation := "✨ **¡Pago confirmado exitosamente!** ✨\n\n🌙 Ahora tienes acceso completo e ilimitado a mis servicios de interpretación de sueños.\n\nLos misterios del mundo onírico se revelan ante ti. Puedes preguntarme lo que desees sobre tus sueños, símbolos, visiones nocturnas y todos los secretos que tu subconsciente guarda para ti.\n\n¿Qué sueño quieres que interprete?"

  /**
   * `welcomeMessages`: the welcome is one of these, picked at random; the
   * greeting the steps are given stands for the pick.
   */
  const WelcomeMessages := [
    "Ah, veo que has venido para descifrar los misterios de tu mundo onírico... Los sueños son ventanas al alma. Cuéntame, ¿qué visiones te han visitado?",
    "Las energías cósmicas me susurran que tienes sueños que deben ser interpretados. Soy la Maestra Alma, guardiana de los secretos oníricos. ¿Qué mensaje del subconsciente te preocupa?",
    "Bienvenido, viajero de los sueños. Los planos astrales me han mostrado tu llegada. Déjame guiarte a través de los símbolos y misterios de tus visiones nocturnas.",
    "El cristal de los sueños brilla con tu presencia... Siento que llevas visiones que deben ser descifradas. Confía en mi antigua sabiduría y comparte tus sueños conmigo."]

  /** `dreamServiceConfig`, handed to the data form for checkout. */
  const Service := ServiceConfig("2", "Significado de Sueños", 18000, "Acceso completo a interpretaciones de sueños ilimitadas")

  /** The paid flag is read and written under service '1', not the '2' of `Service`. */
  const Config := Widget(
    4,
    Keys("hasUserPaidForDreams_traumdeutung", "dreamMessages", "dreamUserMessageCount",
         "dreamBlockedMessageId", "pendingDreamMessage", None),
    "1", "conversationHistory", map[],
    "interpreter", WithoutLast,
    false, true, true, true, false, true,
    Confirmation, "", "", "")

  /** The widget's keys are apart from each other and from the shared ones. */
  lemma ConfigFits()
    ensures WellKeyed(Config) && ApartFromShared(Config) && ExtrasFit(Config, NoExtras)
  {
  }

  // ------------------------------------------------------------- answers

  /** `handleError(errorMessage)`: the message shown in the conversation. */
  function ErrorText(errorMessage: string): string
  {
    "🔮 Las energías cósmicas están perturbadas... " + errorMessage
    + " Intenta de nuevo cuando las vibraciones se estabilicen."
  }

  const NoAnswerText := "Error al obtener la respuesta del intérprete"
  const ConnectionText := "Error de conexión. Por favor, inténtalo de nuevo."

  /**
   * The subscriber of `chatWithInterpreter`: a successful non-empty text is
   * the reply; an unsuccessful or empty body and an error each become an
   * error message that is shown but not saved: the shared rule with this
   * widget's texts.
   */
  function AnswerOf(reply: ServiceReply): Answer
  {
    AnswerFrom(reply, ErrorText(NoAnswerText), ErrorText(ConnectionText), false)
  }

  /**
   * An answer that is not a reply is shown as an error: no block, the
   * counter kept, and the session left exactly as it was.
   */
  lemma FailedAnswerNeverBlocks(v: ChatView, reply: ServiceReply, id: string, savedAt: string)
    requires !(reply.Responded? && reply.success && reply.response != "")
    ensures var r := Received(Config, v, AnswerOf(reply), id, NoExtras, savedAt);
      && r.blocked == v.blocked && r.count == v.count && !r.loading
      && r.messages == v.messages + [Said(AnswerOf(reply).text)]
      && r.session == v.session
  {
    ConfigFits();
    NoticeNeverBlocks(Config, v, AnswerOf(reply).text, false, id, NoExtras, savedAt);
    NoticeStorage(Config, v, AnswerOf(reply).text, false, id, NoExtras, savedAt);
  }

  // ------------------------------------------------------- the message box

  /** `textareaHeight`'s initial value, and the bounds `adjustTextareaHeight` keeps it in. */
  const InitialHeight := 25
  const MinHeight := 45
  const MaxHeight := 120

  /** `Math.min(Math.max(scrollHeight, min), max)`. */
  function Clamped(scrollHeight: int): int
  {
    if scrollHeight < MinHeight then MinHeight else if scrollHeight > MaxHeight then MaxHeight else scrollHeight
  }

  /**
   * The adjusted height lies between the bounds, is the content's height
   * whenever that fits, and the nearest bound otherwise; adjusting twice
   * changes nothing more, and a taller content never gets a lower box.
   */
  lemma ClampedBounds(scrollHeight: int, other: int)
    ensures MinHeight <= Clamped(scrollHeight) <= MaxHeight
    ensures MinHeight <= scrollHeight <= MaxHeight ==> Clamped(scrollHeight) == scrollHeight
    ensures scrollHeight < MinHeight ==> Clamped(scrollHeight) == MinHeight
    ensures scrollHeight > MaxHeight ==> Clamped(scrollHeight) == MaxHeight
    ensures Clamped(Clamped(scrollHeight)) == Clamped(scrollHeight)
    ensures scrollHeight <= other ==> Clamped(scrollHeight) <= Clamped(other)
  {
  }

  /** The box starts lower than the least height `adjustTextareaHeight` ever gives it. */
  lemma InitialHeightBelowMinimum()
    ensures InitialHeight < MinHeight
    ensures forall scrollHeight :: Clamped(scrollHeight) != InitialHeight
  {
    forall scrollHeight
      ensures Clamped(scrollHeight) != InitialHeight
    {
      ClampedBounds(scrollHeight, scrollHeight);
    }
  }

  /** `textareaHeight`. */
  class MessageBox {
    var height: int

    /** Between the bounds, as every adjustment leaves it. */
    predicate Fitted()
      reads this
    {
      MinHeight <= height <= MaxHeight
    }

    constructor()
      ensures height == InitialHeight && !Fitted()
    {
      height := InitialHeight;
    }

    /** `adjustTextareaHeight`, given the content's `scrollHeight`. */
    method Adjust(scrollHeight: int)
      modifies this
      ensures height == Clamped(scrollHeight) && Fitted()
    {
      var h := scrollHeight;
      if h < MinHeight {
        h := MinHeight;
      }
      if h > MaxHeight {
        h := MaxHeight;
      }
      height := h;
    }

    /** The reset `onKeyPress` schedules after a send. */
    method Shrink()
      modifies this
      ensures height == MinHeight && Fitted()
    {
      height := MinHeight;
    }
  }

  /** The chat after `onKeyPress`: Enter without Shift sends a message the input accepts. */
  function KeyPressed(w: Widget, v: ChatView, enter: bool, shift: bool, e: Extras, savedAt: string): ChatView
  {
    if enter && !shift && Accepts(v) then Sent(w, v, e, savedAt) else v
  }

  /**
   * `onKeyPress`: Enter without Shift, on an input the chat accepts, sends
   * it and (50 ms later) shrinks the box to its least height.
   */
  method KeyPress(c: ChatWidget, box: MessageBox, enter: bool, shift: bool, savedAt: string)
    returns (request: Option<ChatRequest>)
    modifies c, c.browser, box
    ensures c.View() == KeyPressed(c.widget, old(c.View()), enter, shift, NoExtras, savedAt)
    ensures request.Some? ==> request == Requested(c.widget, old(c.View()))
    ensures box.height == if enter && !shift && Accepts(old(c.View())) then MinHeight else old(box.height)
  {
    request := None;
    if enter && !shift && Accepts(c.View()) {
      request := c.SendMessage(NoExtras, savedAt);
      box.Shrink();
    }
  }

  // ------------------------------------------------- this widget's rules

  /**
   * Unpaid, the fourth message is held back: stored as pending, nothing
   * counted or shown, the payment modal closed and the data modal opened.
   */
  lemma FourthMessageHeldBack(v: ChatView, savedAt: string)
    requires Accepts(v) && !v.paid && v.count >= 3
    ensures var r := Sent(Config, v, NoExtras, savedAt);
      && r.count == v.count && r.messages == v.messages
      && RawItem(r.session, Config.keys.pending) == Some(Trim(v.input))
      && r.dataModal && !r.paymentModal
  {
    ConfigFits();
    InterceptHoldsBack(Config, v, NoExtras, savedAt);
  }

  /** A reply blocks exactly when the user is unpaid and has sent four messages. */
  lemma BlocksFromFourthReply(v: ChatView, text: string, id: string, savedAt: string)
    requires v.blocked != Some(id)
    ensures Received(Config, v, Reply(text), id, NoExtras, savedAt).blocked == Some(id)
        <==> !v.paid && v.count >= 4
  {
    ConfigFits();
    ReplyBlocksIff(Config, v, text, id, NoExtras, savedAt);
  }

  /**
   * The history sent is the conversation as it was before the new message,
   * the user's as `user` and the others as `interpreter`.
   */
  lemma HistoryIsWithoutLast(v: ChatView)
    requires Accepts(v) && !Intercepts(Config, v)
    ensures Requested(Config, v) == Some(ChatRequest(Trim(v.input), Some(Turns("interpreter", v.messages))))
  {
    ConfigFits();
    RequestHistory(Config, v);
  }

  /** `newConsultation` leaves one welcome, a zero counter and no block, paid or not. */
  lemma NewConsultationLeavesOneWelcome(v: ChatView, greeting: string)
    ensures var r := ConsultationRenewed(Config, v, greeting);
      && r.messages == [Said(greeting)] && r.count == 0 && r.blocked == None && r.paid == v.paid
      && Config.keys.messages !in r.session && Config.keys.blocked !in r.session
  {
    ConfigFits();
    RenewalLeavesOneWelcome(Config, v, greeting);
  }

  /** A stored conversation that does not parse is dropped with its keys, and the welcome shown alone. */
  lemma MalformedLoadWelcomesOnce(v: ChatView, greeting: string)
    requires v.messages == [] && ReadMessages(v.session, Config.keys.messages).Malformed?
    ensures var r := Loaded(Config, v, greeting);
      && r.messages == [Said(greeting)] && r.count == 0
      && Config.keys.messages !in r.session && Config.keys.blocked !in r.session
  {
    ConfigFits();
    UnreadableLoadWelcomesOnce(Config, v, greeting);
  }
}
