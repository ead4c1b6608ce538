/**
 * The inner-animal widget (`animal-interior`): the paywall with two free
 * messages (the third is held back) and free consultations, the last ten
 * messages sent as history, checkout started from the widget itself,
 * `clearChat`, and a premium prize that, unlike the other widgets', does
 * not write the per-service flag.
 */
module InnerAnimal {
  import opened Wrappers
  import opened Text
  import opened Records
  import opened PaymentService
  import opened Paywall
  import opened PaywallLaws
  import opened PaywallReturns
  import opened ChatWidgets

  const Confirmation := "✨ **¡Pago confirmado exitosamente!** ✨\n\n🦉 Ahora tienes acceso completo e ilimitado a mi sabiduría sobre el reino animal. \n\nLos espíritus animales te dan la bienvenida. Puedes preguntarme lo que desees sobre tu animal interior, conexiones espirituales y todos los misterios ancestrales.\n\n¿En qué puedo ayudarte?"
  const PremiumNotice := "🦋 **¡Has desbloqueado el acceso Premium completo!** 🦋\n\nAhora tienes acceso ilimitado a toda la sabiduría del reino animal."
  /** The one welcome of `initializeWelcomeMessage` and `clearChat`. */
  const Welcome := "🦉 ¡Hola, Buscador! Soy Olivia, tu guía espiritual del reino animal. Estoy aquí para ayudarte a descubrir tu animal interior y conectar con él.\n\n¿Qué te gustaría explorar sobre tu espíritu animal?"
  const NoWisdomText := "🦉 Lo siento, no pude conectarme con la sabiduría animal en este momento. Inténtalo de nuevo."
  const ConnectionText := "🦉 Hubo un error en la conexión espiritual. Inténtalo de nuevo."

  /** `animalServiceConfig`, also the figures of the order `handlePaymentSubmit` posts. */
  const Service := ServiceConfig("6", "Animal Interior - Guía Espiritual", 15000,
                                 "Acceso completo a consultas ilimitadas con Xamán Kiara sobre tu animal interior")

  const Config := Widget(
    3,
    Keys("hasUserPaidForAnimal_inneresTier", "animalInteriorMessages", "animalInteriorUserMessageCount",
         "animalInteriorBlockedMessageId", "pendingAnimalMessage", Some("freeAnimalConsultations")),
    "6", "chatMessages", map[],
    "guide", LastTen,
    false, false, false, true, false, true,
    Confirmation,
    "✨ *Has utilizado una conexión espiritual gratuita* ✨\n\nTe quedan **", "** consultas gratuitas disponibles.",
    PremiumNotice)

  /** The widget's keys are apart from each other and from the shared ones. */
  lemma ConfigFits()
    ensures WellKeyed(Config) && ApartFromShared(Config) && ExtrasFit(Config, NoExtras)
  {
  }

  /** The prize announcement of `onPrizeWon`. */
  function Announcement(p: Prize): string
  {
    "🦉 ¡Los espíritus animales han hablado! Has ganado: **" + p.name + "** " + p.icon
    + "\n\nLos antiguos guardianes del reino animal han decidido bendecirte con este regalo sagrado."
  }

  // ------------------------------------------------------------- answers

  /**
   * The subscriber of `chatWithGuide`: a successful non-empty text is the
   * reply; an unsuccessful or empty body and an error each become a notice,
   * saved with the conversation.
   */
  function AnswerOf(reply: ServiceReply): (a: Answer)
    ensures a.Reply? <==> reply.Responded? && reply.success && reply.response != ""
    ensures a.Reply? ==> a.text == reply.response
    ensures a.Notice? ==> a.persisted && a.text == (if reply.Failed? then ConnectionText else NoWisdomText)
  {
    AnswerFrom(reply, NoWisdomText, ConnectionText, true)
  }

  /** An answer that is not a reply never sets a block, and is saved with the conversation. */
  lemma FailedAnswerNeverBlocks(w: Widget, v: ChatView, reply: ServiceReply, id: string, e: Extras, savedAt: string)
    requires WellKeyed(w) && !(reply.Responded? && reply.success && reply.response != "")
    ensures var r := Received(w, v, AnswerOf(reply), id, e, savedAt);
      && r.blocked == v.blocked && r.count == v.count && r.paid == v.paid
      && r.messages == v.messages + [Said(AnswerOf(reply).text)]
      && ReadMessages(r.session, w.keys.messages) == Parsed(r.messages)
  {
    NoticeNeverBlocks(w, v, AnswerOf(reply).text, true, id, e, savedAt);
    NoticeStorage(w, v, AnswerOf(reply).text, true, id, e, savedAt);
  }

  // ------------------------------------------------------------ resetting

  /** `clearChat`: input and conversation emptied, the three keys removed, the welcome shown. */
  function ChatCleared(w: Widget, v: ChatView): ChatView
  {
    Posted(w, Emptied(InputCleared(v), {w.keys.messages, w.keys.count, w.keys.blocked}), Said(Welcome))
  }

  method ClearChat(c: ChatWidget)
    modifies c, c.browser
    ensures c.View() == ChatCleared(c.widget, old(c.View()))
  {
    c.ClearInput();
    c.Empty({c.widget.keys.messages, c.widget.keys.count, c.widget.keys.blocked});
    c.Post(Said(Welcome));
  }

  /**
   * `clearChat` leaves exactly the welcome, a zero counter, no block, and
   * none of the three keys in storage (the counter is not written back).
   */
  lemma ClearLeavesOneWelcome(w: Widget, v: ChatView)
    requires WellKeyed(w) && !w.savesEveryPost
    ensures var r := ChatCleared(w, v);
      && r.messages == [Said(Welcome)] && r.count == 0 && r.blocked == None && r.paid == v.paid
      && r.input == [] && !r.loading
      && w.keys.messages !in r.session && w.keys.count !in r.session && w.keys.blocked !in r.session
  {
  }

  // ------------------------------------------------- this widget's rules

  /**
   * Without payment or free consultations the third message is held back:
   * stored as pending, nothing counted or shown, the payment modal closed
   * and the data modal opened.
   */
  lemma ThirdMessageHeldBack(v: ChatView, e: Extras, savedAt: string)
    requires ExtrasFit(Config, e) && Accepts(v) && !v.paid && Credits(Config, v.session) == 0 && v.count >= 2
    ensures var r := Sent(Config, v, e, savedAt);
      && r.count == v.count && r.messages == v.messages
      && RawItem(r.session, Config.keys.pending) == Some(Trim(v.input))
      && r.dataModal && !r.paymentModal
  {
    ConfigFits();
    InterceptHoldsBack(Config, v, e, savedAt);
  }

  /**
   * The history sent is the last ten messages at most, the new user message
   * last, the user's as `user` and the others as `guide`.
   */
  lemma HistoryIsLastTen(v: ChatView)
    requires Accepts(v) && !Intercepts(Config, v)
    ensures var all := Before(Config, v) + [Message(true, Trim(v.input), None)];
      Requested(Config, v) == Some(ChatRequest(Trim(v.input), Some(Turns("guide", LastN(all, 10)))))
  {
    ConfigFits();
    RequestedAfterAdding(Config, v);
  }

  /**
   * The premium prize unlocks the widget by its own flag but leaves the
   * per-service flag of service '6' as it was.
   */
  lemma PremiumLeavesServiceFlag(v: ChatView, announcement: string)
    ensures var r := PrizeWon(Config, v, "2", announcement);
      && r.paid && !IsSet(r.blocked)
      && IsTrueItem(r.session, Config.keys.paidFlag)
      && IsServicePaid(r.session, "6") == IsServicePaid(v.session, "6")
  {
    ConfigFits();
    PremiumPrize(Config, v, announcement);
  }
}
