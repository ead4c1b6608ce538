/**
 * The numerology reading (`lectura-numerologia`): the paywall with three
 * free messages, the last ten messages sent as history, an answer without
 * text shown as an error that is neither saved nor blocked, and the
 * personal numbers the form announces. Its `newConsultation` is the one of
 * the `Consultations` module.
 */
module Numerology {
  import opened Wrappers
  import opened Text
  import opened Records
  import opened PaymentService
  import opened Paywall
  import opened PaywallLaws
  import opened PaywallReturns
  import opened ChatWidgets
  import opened Consultations

  const Confirmation := "✨ **¡Pago confirmado exitosamente!** ✨\n\n🔢 Ahora tienes acceso completo e ilimitado a mis servicios de numerología sagrada.\n\nLos números del universo se han alineado a tu favor. Puedes preguntarme lo que desees sobre tu camino de vida, números del destino, compatibilidades numéricas y todos los secretos que los números guardan para ti.\n\n¿Qué misterio numérico quieres descubrir?"

  /**
   * `welcomeMessages`: the welcome is one of these, picked at random; the
   * greeting the steps below are given stands for the pick.
   */
  const WelcomeMessages := [
    "Bienvenido, buscador de la sabiduría numérica... Los números son el lenguaje del universo y revelan los secretos de tu destino. ¿Qué quieres saber sobre tu vibración numérica?",
    "Las energías numéricas me susurran que has venido a buscar respuestas... Soy la Maestra Sofía, guardiana de los números sagrados. ¿Qué secreto numérico te inquieta?",
    "Bienvenido al Templo de los Números Sagrados. Los patrones matemáticos del cosmos han anunciado tu llegada. Permíteme revelarte los secretos de tu código numérico.",
    "Los números danzan ante mí y revelan tu presencia... Cada número tiene un significado, cada cálculo revela un destino. ¿Qué números quieres que interprete para ti?"]

  /** `numerologyServiceConfig`, handed to the data form for checkout. */
  const Service := ServiceConfig("4", "Lectura de Numerología", 18000, "Acceso completo a lecturas numerológicas ilimitadas")

  /** The paid flag is read and written under service '3', not the '4' of `Service`. */
  const Config := Widget(
    4,
    Keys("hasUserPaidForNumerology_numerologie", "numerologyMessages", "numerologyUserMessageCount",
         "numerologyBlockedMessageId", "pendingNumerologyMessage", None),
    "3", "conversationHistory", map[],
    "numerologist", LastTen,
    false, true, true, true, false, true,
    Confirmation, "", "", "")

  /** The widget's keys are apart from each other and from the shared ones. */
  lemma ConfigFits()
    ensures WellKeyed(Config) && ApartFromShared(Config) && ExtrasFit(Config, NoExtras)
  {
  }

  // ------------------------------------------------------------- answers

  /** `handleError(errorMessage)`: the message shown in the conversation. */
  function ErrorText(errorMessage: string): string
  {
    "🔢 Los números cósmicos están en fluctuación... " + errorMessage
    + " Intenta de nuevo cuando las vibraciones numéricas se hayan estabilizado."
  }

  const NoAnswerText := "Error al obtener respuesta del numerólogo"
  const ConnectionText := "Error de conexión. Por favor, inténtalo de nuevo."

  /**
   * The subscriber of `sendMessage`: the component receives the text alone,
   * and a non-empty text is the reply; an empty text and an error each
   * become an error message that is shown but not saved.
   */
  function AnswerOf(reply: ServiceReply): (a: Answer)
    ensures a.Reply? <==> reply.Responded? && reply.response != ""
    ensures a.Reply? ==> a.text == reply.response
    ensures a.Notice? ==> !a.persisted && a.text == ErrorText(if reply.Failed? then ConnectionText else NoAnswerText)
  {
    match reply
    case Responded(_, text) => if text != "" then Reply(text) else Notice(ErrorText(NoAnswerText), false)
    case Failed => Notice(ErrorText(ConnectionText), false)
  }

  /**
   * An answer without text, or a failed request, is shown as an error: no
   * id and no block, the counter and the paid state kept, nothing loading,
   * and the session left exactly as it was, so the error is not saved.
   */
  lemma EmptyAnswerNeverBlocks(w: Widget, v: ChatView, reply: ServiceReply, id: string, e: Extras, savedAt: string)
    requires WellKeyed(w) && !w.savesEveryPost && !(reply.Responded? && reply.response != "")
    ensures var r := Received(w, v, AnswerOf(reply), id, e, savedAt);
      && r.blocked == v.blocked && r.count == v.count && r.paid == v.paid && !r.loading
      && r.messages == v.messages + [Said(AnswerOf(reply).text)]
      && r.session == v.session && r.local == v.local
  {
    NoticeNeverBlocks(w, v, AnswerOf(reply).text, false, id, e, savedAt);
    NoticeStorage(w, v, AnswerOf(reply).text, false, id, e, savedAt);
  }

  // ------------------------------------------------------ personal numbers

  /** The name and birth date of the form, the two numbers computed from them, and `showDataForm`. */
  datatype PersonalState = PersonalState(fullName: string, birthDate: string, lifePath: nat, destiny: nat, shown: bool)

  /**
   * The numbers after `savePersonalData`: the destiny number recomputed for
   * a name and the life path for a birth date, each kept otherwise; the form
   * hidden. `destinyOfName` and `lifePathOfDate` are what the numerology
   * service computes.
   */
  function NumbersCalculated(s: PersonalState, destinyOfName: nat, lifePathOfDate: nat): (r: PersonalState)
    ensures r.fullName == s.fullName && r.birthDate == s.birthDate && !r.shown
    ensures r.destiny == (if s.fullName != "" then destinyOfName else s.destiny)
    ensures r.lifePath == (if s.birthDate != "" then lifePathOfDate else s.lifePath)
  {
    s.(destiny := if s.fullName != "" then destinyOfName else s.destiny,
       lifePath := if s.birthDate != "" then lifePathOfDate else s.lifePath,
       shown := false)
  }

  const NumbersHead := "He calculado tus números sagrados:\n\n"
  const NumbersTail := "¿Quieres que profundice en la interpretación de alguno de estos números?"

  /** The line of one number, `🔹 <name>: <n> - <meaning>`, or nothing for zero. */
  function NumberLine(name: string, n: nat, meaning: string): string
  {
    if n != 0 then "🔹 " + name + ": " + NatToString(n) + " - " + meaning + "\n\n" else ""
  }

  /** The message announcing the numbers, with the meanings the service gives for them. */
  function NumbersNote(s: PersonalState, lifeMeaning: string, destinyMeaning: string): string
  {
    NumbersHead + NumberLine("Camino de Vida", s.lifePath, lifeMeaning)
    + NumberLine("Número del Destino", s.destiny, destinyMeaning) + NumbersTail
  }

  /** The chat after `savePersonalData`: the note shown and saved when either number is set. */
  function NumbersShown(w: Widget, v: ChatView, s: PersonalState, lifeMeaning: string, destinyMeaning: string): ChatView
  {
    if s.lifePath != 0 || s.destiny != 0 then MessagesSaved(w, Pushed(v, Said(NumbersNote(s, lifeMeaning, destinyMeaning))))
    else v
  }

  /**
   * A note is added exactly when a number is set, and then the stored
   * conversation reads back as the one on screen; otherwise nothing changes.
   */
  lemma NumbersNoteShown(w: Widget, v: ChatView, s: PersonalState, lifeMeaning: string, destinyMeaning: string)
    ensures var r := NumbersShown(w, v, s, lifeMeaning, destinyMeaning);
      && (|r.messages| == |v.messages| + 1 <==> s.lifePath != 0 || s.destiny != 0)
      && (s.lifePath == 0 && s.destiny == 0 ==> r == v)
      && (s.lifePath != 0 || s.destiny != 0 ==>
            && r.messages == v.messages + [Said(NumbersNote(s, lifeMeaning, destinyMeaning))]
            && ReadMessages(r.session, w.keys.messages) == Parsed(r.messages)
            && Kept(r, v) && r.local == v.local)
  {
  }

  /** The note starts with the heading and ends with the question. */
  lemma NumbersNoteFrame(s: PersonalState, lifeMeaning: string, destinyMeaning: string)
    ensures var note := NumbersNote(s, lifeMeaning, destinyMeaning);
      NumbersHead <= note && note[|note| - |NumbersTail|..] == NumbersTail
  {
    var middle := NumberLine("Camino de Vida", s.lifePath, lifeMeaning) + NumberLine("Número del Destino", s.destiny, destinyMeaning);
    var note := NumbersNote(s, lifeMeaning, destinyMeaning);
    assert note == NumbersHead + (middle + NumbersTail);
    assert note[..|NumbersHead|] == NumbersHead;
    assert note == (NumbersHead + middle) + NumbersTail;
    assert note[|note| - |NumbersTail|..] == NumbersTail;
  }

  class PersonalForm {
    var fullName: string
    var birthDate: string
    var lifePath: nat
    var destiny: nat
    var shown: bool

    function State(): PersonalState
      reads this
    {
      PersonalState(fullName, birthDate, lifePath, destiny, shown)
    }

    constructor()
      ensures State() == PersonalState("", "", 0, 0, false)
    {
      fullName, birthDate, lifePath, destiny, shown := "", "", 0, 0, false;
    }

    /** The user types into the form. */
    method Fill(name: string, date: string)
      modifies this
      ensures State() == old(State()).(fullName := name, birthDate := date)
    {
      fullName, birthDate := name, date;
    }

    /** `toggleDataForm`. */
    method Toggle()
      modifies this
      ensures State() == old(State()).(shown := !old(shown))
    {
      shown := !shown;
    }

    method Calculate(destinyOfName: nat, lifePathOfDate: nat)
      modifies this
      ensures State() == NumbersCalculated(old(State()), destinyOfName, lifePathOfDate)
    {
      if fullName != "" {
        destiny := destinyOfName;
      }
      if birthDate != "" {
        lifePath := lifePathOfDate;
      }
      shown := false;
    }
  }

  /** `savePersonalData`, with the service's numbers and meanings as parameters. */
  method SavePersonalData(c: ChatWidget, f: PersonalForm, destinyOfName: nat, lifePathOfDate: nat,
                          lifeMeaning: string, destinyMeaning: string)
    modifies c, c.browser, f
    ensures f.State() == NumbersCalculated(old(f.State()), destinyOfName, lifePathOfDate)
    ensures c.View() == NumbersShown(c.widget, old(c.View()), f.State(), lifeMeaning, destinyMeaning)
  {
    f.Calculate(destinyOfName, lifePathOfDate);
    if f.lifePath != 0 || f.destiny != 0 {
      c.Push(Said(NumbersNote(f.State(), lifeMeaning, destinyMeaning)));
      c.SaveMessages();
    }
  }

  // ------------------------------------------------- this widget's rules

  /**
   * Unpaid, the fourth message is held back: stored as pending, nothing
   * counted or shown, the payment modal closed and the data modal opened.
   */
  lemma FourthMessageHeldBack(v: ChatView, savedAt: string)
    requires Accepts(v) && !v.paid && v.count >= 3
    ensures var r := Sent(Config, v, NoExtras, savedAt);
      && r.count == v.count && r.messages == v.messages
      && RawItem(r.session, Config.keys.pending) == Some(Trim(v.input))
      && r.dataModal && !r.paymentModal
  {
    ConfigFits();
    InterceptHoldsBack(Config, v, NoExtras, savedAt);
  }

  /** A reply blocks exactly when the user is unpaid and has sent four messages. */
  lemma BlocksFromFourthReply(v: ChatView, text: string, id: string, savedAt: string)
    requires v.blocked != Some(id)
    ensures Received(Config, v, Reply(text), id, NoExtras, savedAt).blocked == Some(id)
        <==> !v.paid && v.count >= 4
  {
    ConfigFits();
    ReplyBlocksIff(Config, v, text, id, NoExtras, savedAt);
  }

  /**
   * The history sent is the last ten messages at most, the new user message
   * last, the user's as `user` and the others as `numerologist`.
   */
  lemma HistoryIsLastTen(v: ChatView)
    requires Accepts(v) && !Intercepts(Config, v)
    ensures Requested(Config, v)
         == Some(ChatRequest(Trim(v.input), Some(Turns("numerologist", LastN(v.messages + [Message(true, Trim(v.input), None)], 10)))))
  {
    ConfigFits();
    RequestedAfterAdding(Config, v);
  }
}
