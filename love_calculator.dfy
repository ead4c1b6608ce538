/**
 * The love calculator (`calculadora-amor`): the paywall with two free
 * messages (the third is held back) and free consultations, the
 * fortune-wheel prizes, the reset of `clearConversation`, and the
 * `dd/mm/yyyy` dates sent to the service.
 */
module LoveCalculator {
  import opened Wrappers
  import opened Text
  import opened Records
  import opened PaymentService
  import opened Paywall
  import opened PaywallLaws
  import opened PaywallReturns
  import opened ChatWidgets

  const Confirmation := "✨ **¡Pago confirmado exitosamente!** ✨\n\n💕 Ahora tienes acceso completo e ilimitado a mis servicios de compatibilidad amorosa.\n\nLas energías del amor fluyen libremente hacia ti. Puedes preguntarme lo que desees sobre tu compatibilidad, relaciones y el destino romántico que te aguarda.\n\n¿Qué secreto del amor quieres descubrir?"
  const PremiumNotice := "💖 **¡Has desbloqueado el acceso Premium completo!** 💖\n\nAhora tienes acceso ilimitado a todos mis servicios de compatibilidad amorosa."

  /** `loveServiceConfig`, handed to the data form for checkout. */
  const Service := ServiceConfig("9", "Calculadora del Amor", 12000, "Acceso completo a consultas ilimitadas de compatibilidad amorosa")

  const Config := Widget(
    3,
    Keys("hasUserPaidForLove_liebesrechner", "loveMessages", "loveUserMessageCount",
         "loveBlockedMessageId", "pendingLoveMessage", Some("freeLoveConsultations")),
    "9", "conversationHistory", map[],
    "love_expert", NotSent,
    false, true, true, true, true, true,
    Confirmation,
    "✨ *Has utilizado una consulta de amor gratuita* ✨\n\nTe quedan **", "** consultas gratuitas disponibles.",
    PremiumNotice)

  /** The widget's keys are apart from each other and from the shared ones. */
  lemma ConfigFits()
    ensures WellKeyed(Config) && ApartFromShared(Config) && ExtrasFit(Config, NoExtras)
  {
  }

  /** The prize announcement of `onPrizeWon`. */
  function Announcement(p: Prize): string
  {
    "💕 ¡El verdadero amor ha conspirado a tu favor! Has ganado: **" + p.name + "** " + p.icon
    + "\n\nLas fuerzas románticas del universo han decidido bendecirte con este regalo celestial."
  }

  // ------------------------------------------------------------- answers

  /** `handleError(errorMessage)`: the message shown in the conversation. */
  function ErrorText(errorMessage: string): string
  {
    "💕 Las energías del amor fluctúan... " + errorMessage + " Intenta de nuevo cuando las vibraciones románticas se estabilicen."
  }

  const NoAnswerText := "Error al obtener la respuesta del experto en amor"
  const ConnectionText := "Error de conexión. Por favor, inténtalo de nuevo."

  /**
   * The subscriber of `chatWithLoveExpert`: a successful non-empty text is
   * the reply; an unsuccessful or empty body and an error each become an
   * error message that is shown but not saved: the shared rule with this
   * widget's texts.
   */
  function AnswerOf(reply: ServiceReply): Answer
  {
    AnswerFrom(reply, ErrorText(NoAnswerText), ErrorText(ConnectionText), false)
  }

  // ------------------------------------------------------------ resetting

  /** The three keys `clearSessionData` removes. */
  function ConversationKeys(w: Widget): set<string>
  {
    {w.keys.messages, w.keys.count, w.keys.blocked}
  }

  /** `clearConversation`: input and conversation emptied, the three keys removed, then the welcome. */
  function ConversationCleared(w: Widget, v: ChatView, greeting: string): ChatView
  {
    Welcomed(w, Emptied(InputCleared(v), ConversationKeys(w)), greeting)
  }

  method ClearConversation(c: ChatWidget, greeting: string)
    modifies c, c.browser
    ensures c.View() == ConversationCleared(c.widget, old(c.View()), greeting)
  {
    c.ClearInput();
    c.Restart(ConversationKeys(c.widget), greeting);
  }

  /**
   * `clearConversation` leaves exactly the welcome, a zero counter stored as
   * "0", no block and neither the conversation nor the block in storage;
   * the paid state is kept.
   */
  lemma ClearLeavesOneWelcome(w: Widget, v: ChatView, greeting: string)
    requires WellKeyed(w) && !w.savesEveryPost
    ensures var r := ConversationCleared(w, v, greeting);
      && r.messages == [Said(greeting)] && r.count == 0 && r.blocked == None && r.paid == v.paid
      && r.input == [] && !r.loading
      && CountOf(RawItem(r.session, w.keys.count)) == 0
      && w.keys.messages !in r.session && w.keys.blocked !in r.session
  {
    var v0 := Emptied(InputCleared(v), ConversationKeys(w));
    ResetLeavesOneWelcome(w, InputCleared(v), ConversationKeys(w), greeting);
    CountSavedTouchesOnly(w, v0.(count := 0), w.keys.messages);
  }

  // ----------------------------------------------------- dates for the service

  /** A calendar date as `getDate()`, `getMonth()` (from 0) and `getFullYear()` give it. */
  datatype CalendarDate = CalendarDate(day: nat, monthIndex: nat, year: nat)

  /** `formatDateForService`: `dd/mm/yyyy`, and the empty text for no date. */
  function FormatDateForService(date: Option<CalendarDate>): string
  {
    match date
    case None => ""
    case Some(d) =>
      PadStart2(NatToString(d.day)) + "/" + PadStart2(NatToString(d.monthIndex + 1)) + "/" + NatToString(d.year)
  }

  /** A number below 100, padded to two digits, reads back as itself. */
  lemma {:induction false} PaddedReadsBack(n: nat)
    requires n < 100
    ensures |PadStart2(NatToString(n))| == 2
    ensures ParseNat(PadStart2(NatToString(n))) == Some(n)
  {
    var s := NatToString(n);
    if n < 10 {
      var p := PadStart2(s);
      assert p == ['0', DigitChar(n)];
      assert p[..1] == ['0'] && p[..1][..0] == [];
      assert AllDigits(p[..1]) && AllDigits(p);
      assert DigitsValue(p[..1]) == 0;
      DigitRoundTrip(n);
    } else {
      assert s == NatToString(n / 10) + [DigitChar(n % 10)];
      assert |s| == 2;
      ParseNatToString(n);
    }
  }

  /**
   * A real date is formatted as two digits of day, '/', two digits of month
   * counted from 1, '/', and the year; each part reads back as the number
   * it came from, so the text determines the date.
   */
  lemma FormattedDateReadsBack(d: CalendarDate)
    requires 1 <= d.day <= 31 && d.monthIndex < 12
    ensures var r := FormatDateForService(Some(d));
      && |r| > 6 && r[2] == '/' && r[5] == '/'
      && ParseNat(r[..2]) == Some(d.day)
      && ParseNat(r[3..5]) == Some(d.monthIndex + 1)
      && ParseNat(r[6..]) == Some(d.year)
  {
    var dd := PadStart2(NatToString(d.day));
    var mm := PadStart2(NatToString(d.monthIndex + 1));
    var yy := NatToString(d.year);
    PaddedReadsBack(d.day);
    PaddedReadsBack(d.monthIndex + 1);
    ParseNatToString(d.year);
    var r := FormatDateForService(Some(d));
    assert r == dd + "/" + mm + "/" + yy;
    assert r[..2] == dd;
    assert r[3..5] == mm;
    assert r[6..] == yy;
  }

  /** Different dates are formatted differently; no date gives the empty text. */
  lemma FormatDateInjective(d: CalendarDate, e: CalendarDate)
    requires 1 <= d.day <= 31 && d.monthIndex < 12 && 1 <= e.day <= 31 && e.monthIndex < 12
    ensures FormatDateForService(Some(d)) == FormatDateForService(Some(e)) ==> d == e
    ensures FormatDateForService(Some(d)) != FormatDateForService(None)
  {
    FormattedDateReadsBack(d);
    FormattedDateReadsBack(e);
  }

  // ------------------------------------------------- this widget's rules

  /**
   * Without payment or free consultations the third message is held back:
   * stored as pending, nothing counted or shown, the payment modal closed
   * and the data modal opened.
   */
  lemma ThirdMessageHeldBack(v: ChatView, e: Extras, savedAt: string)
    requires ExtrasFit(Config, e) && Accepts(v) && !v.paid && Credits(Config, v.session) == 0 && v.count >= 2
    ensures var r := Sent(Config, v, e, savedAt);
      && r.count == v.count && r.messages == v.messages
      && RawItem(r.session, Config.keys.pending) == Some(Trim(v.input))
      && r.dataModal && !r.paymentModal
  {
    ConfigFits();
    InterceptHoldsBack(Config, v, e, savedAt);
  }

  /** A reply blocks exactly when the user is unpaid, has no free consultations and has sent three messages. */
  lemma BlocksFromThirdReply(v: ChatView, text: string, id: string, e: Extras, savedAt: string)
    requires ExtrasFit(Config, e) && v.blocked != Some(id)
    ensures Received(Config, v, Reply(text), id, e, savedAt).blocked == Some(id)
        <==> !v.paid && Credits(Config, v.session) == 0 && v.count >= 3
  {
    ConfigFits();
    ReplyBlocksIff(Config, v, text, id, e, savedAt);
  }

  /** The premium prize unlocks the calculator and marks service '9' as paid. */
  lemma PremiumMarksService(v: ChatView, p: Prize)
    requires p.id == "2"
    ensures var r := PrizeWon(Config, v, p.id, Announcement(p));
      && r.paid && !IsSet(r.blocked) && IsServicePaid(r.session, "9")
      && r.messages == v.messages + [Said(Announcement(p)), Said(PremiumNotice)]
  {
    ConfigFits();
    PremiumPrize(Config, v, Announcement(p));
  }
}
