/**
 * The vocational map (`mapa-vocacional`): the paywall with three free
 * messages and no free consultations, the last ten messages sent as
 * history, the questionnaire walked one question at a time, the personal
 * form, and `resetChat`. The questionnaire and the personal form are the
 * component's fields beside the chat, kept in classes of their own.
 */
module VocationalMap {
  import opened Wrappers
  import opened Text
  import opened Records
  import opened PaymentService
  import opened Paywall
  import opened PaywallLaws
  import opened PaywallReturns
  import opened ChatWidgets

  const Confirmation := "✨ **¡Pago confirmado exitosamente!** ✨\n\n🎯 Ahora tienes acceso completo e ilimitado a mis servicios de orientación vocacional.\n\nTu camino profesional está más claro que nunca. Puedes preguntarme lo que desees sobre tu vocación, carrera, habilidades profesionales y todas las oportunidades que el futuro laboral tiene para ti.\n\n¿Qué aspecto de tu futuro profesional quieres explorar?"

  /** `initializeWelcomeMessage`'s text, the greeting the steps below are given. */
  const Welcome := "¡Hola! Soy Dra. Valeria, tu especialista en Orientación Profesional. Estoy aquí para ayudarte a descubrir tu verdadera vocación y diseñar una carta de carrera personalizada para ti."
  const TechnicalText := "Disculpa, estoy experimentando dificultades técnicas. ¿Podrías reformular tu pregunta?"
  /** What `savePersonalInfo` says once something was entered. */
  const RecordedText := "Perfecto, he registrado tu información personal. Esto me ayudará a brindarte una orientación más precisa y personalizada. ¿Hay algo específico sobre tu futuro profesional que te preocupe o entusiasme?"

  /** `vocationalServiceConfig`. */
  const Service := ServiceConfig("5", "Mapa Vocacional", 18000, "Acceso completo a orientación vocacional ilimitada")

  const Config := Widget(
    4,
    Keys("hasUserPaidForVocational_berufskarte", "vocationalMessages", "vocationalUserMessageCount",
         "vocationalBlockedMessageId", "pendingVocationalMessage", None),
    "4", "conversationHistory", map[],
    "counselor", LastTen,
    false, false, true, true, false, true,
    Confirmation, "", "", "")

  /** The widget's keys are apart from each other and from the shared ones. */
  lemma ConfigFits()
    ensures WellKeyed(Config) && ApartFromShared(Config) && ExtrasFit(Config, NoExtras)
  {
  }

  // ------------------------------------------------------------- answers

  /**
   * The subscriber of `sendMessage`: whatever text the service gives is the
   * reply; an error becomes an apology, saved with the conversation.
   */
  function AnswerOf(reply: ServiceReply): (a: Answer)
    ensures a.Reply? <==> reply.Responded?
    ensures a.Reply? ==> a.text == reply.response
    ensures a.Notice? ==> a.persisted && a.text == TechnicalText
  {
    match reply
    case Responded(_, text) => Reply(text)
    case Failed => Notice(TechnicalText, true)
  }

  // -------------------------------------------------------- personal form

  /** `personalInfo` and `showPersonalForm`. */
  class PersonalForm {
    var info: map<string, string>
    var shown: bool

    constructor()
      ensures info == map[] && !shown
    {
      info, shown := map[], false;
    }

    /** `togglePersonalForm`. */
    method Toggle()
      modifies this
      ensures info == old(info) && shown == !old(shown)
    {
      shown := !shown;
    }

    /** The user fills in one field. */
    method Fill(field: string, value: string)
      modifies this
      ensures info == old(info)[field := value] && shown == old(shown)
    {
      info := info[field := value];
    }

    /** The reset of `resetChat`. */
    method Clear()
      modifies this
      ensures info == map[] && shown == old(shown)
    {
      info := map[];
    }

    method Hide()
      modifies this
      ensures info == old(info) && !shown
    {
      shown := false;
    }
  }

  /** `savePersonalInfo`'s effect on the chat: a note, unsaved, once anything was entered. */
  function PersonalInfoSaved(w: Widget, v: ChatView, info: map<string, string>): ChatView
  {
    if |info| > 0 then Posted(w, v, Said(RecordedText)) else v
  }

  method SavePersonalInfo(c: ChatWidget, p: PersonalForm)
    modifies c, c.browser, p
    ensures c.View() == PersonalInfoSaved(c.widget, old(c.View()), p.info)
    ensures p.info == old(p.info) && !p.shown
  {
    p.Hide();
    if |p.info| > 0 {
      c.Post(Said(RecordedText));
    }
  }

  /** The note is shown only after something was entered, and it changes nothing but the conversation. */
  lemma PersonalInfoNote(w: Widget, v: ChatView, info: map<string, string>)
    requires !w.savesEveryPost
    ensures var r := PersonalInfoSaved(w, v, info);
      && r.messages == (if info == map[] then v.messages else v.messages + [Said(RecordedText)])
      && r.session == v.session && Kept(r, v)
  {
    if info != map[] {
      var k :| k in info;
      assert |info| > 0;
    }
  }

  // --------------------------------------------------------- questionnaire

  datatype AnswerOption = AnswerOption(value: string, caption: string, category: string)
  datatype Question = Question(id: int, question: string, options: seq<AnswerOption>)
  datatype AssessmentAnswer = AssessmentAnswer(question: string, answer: string, category: string)
  /** `currentTab`. */
  datatype Tab = ChatTab | AssessmentTab | ResultsTab

  /** `options.find(o => o.value === value)?.category || ''`. */
  function CategoryOf(options: seq<AnswerOption>, value: string): string
  {
    if options == [] then ""
    else if options[0].value == value then options[0].category
    else CategoryOf(options[1..], value)
  }

  /** Option `i` is the first whose value is `value`. */
  predicate FirstWithValue(options: seq<AnswerOption>, value: string, i: int)
  {
    0 <= i < |options| && options[i].value == value && forall j :: 0 <= j < i ==> options[j].value != value
  }

  /** The category is the first matching option's, and empty when no option matches. */
  lemma {:induction false} CategoryOfFirstMatch(options: seq<AnswerOption>, value: string)
    ensures forall i :: FirstWithValue(options, value, i) ==> CategoryOf(options, value) == options[i].category
    ensures (forall i :: 0 <= i < |options| ==> options[i].value != value) ==> CategoryOf(options, value) == ""
  {
    if options != [] && options[0].value != value {
      CategoryOfFirstMatch(options[1..], value);
      forall i | FirstWithValue(options, value, i)
        ensures CategoryOf(options, value) == options[i].category
      {
        assert FirstWithValue(options[1..], value, i - 1);
      }
      if forall i :: 0 <= i < |options| ==> options[i].value != value {
        assert forall i :: 0 <= i < |options[1..]| ==> options[1..][i].value != value;
      }
    }
  }

  /** `assessmentProgress` as `updateProgress` computes it, for a non-empty questionnaire. */
  function Progress(index: nat, total: nat): real
    requires total > 0
  {
    (index + 1) as real / total as real * 100.0
  }

  /** On any question of the questionnaire the progress is above 0 and at most 100, reaching 100 on the last. */
  lemma ProgressBounds(index: nat, total: nat)
    requires index < total
    ensures 0.0 < Progress(index, total) <= 100.0
    ensures Progress(index, total) == 100.0 <==> index == total - 1
  {
    var p := (index + 1) as real / total as real;
    assert p * total as real == (index + 1) as real;
  }

  /** The questionnaire's fields: the questions, the position, the selection, the answers, the results and the tab. */
  datatype AssessmentState = AssessmentState(
    questions: seq<Question>, index: nat, selected: string, answers: seq<AssessmentAnswer>,
    progress: real, results: Option<string>, hasResults: bool, tab: Tab)
  {
    /** Every question before the current one has an answer. */
    predicate Valid()
    {
      index <= |answers|
    }

    /** `updateProgress`. */
    function ProgressUpdated(): AssessmentState
    {
      if |questions| > 0 then this.(progress := Progress(index, |questions|)) else this
    }

    /** The answer to the current question, when there is one and an option is selected. */
    function CurrentAnswer(): Option<AssessmentAnswer>
    {
      if selected != "" && index < |questions| then
        Some(AssessmentAnswer(questions[index].question, selected, CategoryOf(questions[index].options, selected)))
      else None
    }
  }

  const FreshAssessment := AssessmentState([], 0, "", [], 0.0, None, false, ChatTab)

  /** `answers[index] = a`: a replacement, or an addition at the end. */
  function Recorded(answers: seq<AssessmentAnswer>, index: nat, a: AssessmentAnswer): (r: seq<AssessmentAnswer>)
    requires index <= |answers|
    ensures |r| == if index == |answers| then |answers| + 1 else |answers|
    ensures r[index] == a && forall j :: 0 <= j < |answers| && j != index ==> r[j] == answers[j]
  {
    if index == |answers| then answers + [a] else answers[index := a]
  }

  /** `nextQuestion`. */
  function Next(s: AssessmentState): AssessmentState
    requires s.Valid()
  {
    match s.CurrentAnswer()
    case None => s
    case Some(a) => s.(answers := Recorded(s.answers, s.index, a), index := s.index + 1, selected := "").ProgressUpdated()
  }

  /** `previousQuestion`: one question back, its saved answer selected again. */
  function Previous(s: AssessmentState): AssessmentState
  {
    if s.index > 0 then
      var i := s.index - 1;
      s.(index := i, selected := if i < |s.answers| then s.answers[i].answer else "").ProgressUpdated()
    else s
  }

  /** `finishAssessment` up to the request: the last answer recorded. */
  function Finished(s: AssessmentState): AssessmentState
    requires s.Valid()
  {
    match s.CurrentAnswer()
    case None => s
    case Some(a) => s.(answers := Recorded(s.answers, s.index, a))
  }

  /** `analyzeResults`'s subscriber: results shown on their tab; an error changes nothing. */
  function Analysed(s: AssessmentState, results: Option<string>): AssessmentState
  {
    if results.Some? then s.(results := results, hasResults := true, tab := ResultsTab) else s
  }

  /** `startNewAssessment`. */
  function NewStarted(s: AssessmentState): AssessmentState
  {
    s.(index := 0, selected := "", answers := [], progress := 0.0, results := None, hasResults := false)
     .ProgressUpdated().(tab := AssessmentTab)
  }

  /** The questionnaire part of `resetChat`: back to the start on the chat tab, the progress at 0. */
  function AssessmentReset(s: AssessmentState): AssessmentState
  {
    s.(index := 0, selected := "", answers := [], progress := 0.0, results := None, hasResults := false, tab := ChatTab)
  }

  /** Every step keeps an answer for each question before the current one. */
  lemma StepsKeepValid(s: AssessmentState, value: string, results: Option<string>, qs: seq<Question>, t: Tab)
    requires s.Valid()
    ensures Next(s).Valid() && Previous(s).Valid() && Finished(s).Valid() && Analysed(s, results).Valid()
    ensures NewStarted(s).Valid() && AssessmentReset(s).Valid()
    ensures s.(selected := value).Valid() && s.(questions := qs).ProgressUpdated().Valid() && s.(tab := t).Valid()
  {
  }

  /**
   * `nextQuestion` records the selected option, with its category, as the
   * answer to the current question and moves on; without a selection or a
   * question it does nothing.
   */
  lemma NextRecords(s: AssessmentState)
    requires s.Valid()
    ensures var r := Next(s);
      if s.selected != "" && s.index < |s.questions| then
        && r.index == s.index + 1 && r.selected == "" && r.index <= |r.answers|
        && r.answers[s.index] == AssessmentAnswer(s.questions[s.index].question, s.selected,
                                                  CategoryOf(s.questions[s.index].options, s.selected))
        && (forall j :: 0 <= j < |s.answers| && j != s.index ==> r.answers[j] == s.answers[j])
      else r == s
  {
  }

  /** Going back after going forward returns to the same question with the same option selected. */
  lemma NextThenPrevious(s: AssessmentState)
    requires s.Valid() && s.selected != "" && s.index < |s.questions|
    ensures var r := Previous(Next(s));
      && r.index == s.index && r.selected == s.selected && r.questions == s.questions
      && r.answers[s.index].answer == s.selected
  {
    var n := Next(s);
    assert n.index == s.index + 1 && n.answers[s.index].answer == s.selected && s.index < |n.answers|;
  }

  /** On a valid questionnaire, going back always selects the answer already given. */
  lemma PreviousRestoresAnswer(s: AssessmentState)
    requires s.Valid() && s.index > 0
    ensures Previous(s).index == s.index - 1 && Previous(s).selected == s.answers[s.index - 1].answer
  {
  }

  class Assessment {
    var questions: seq<Question>
    var index: nat
    var selected: string
    var answers: seq<AssessmentAnswer>
    var progress: real
    var results: Option<string>
    var hasResults: bool
    var tab: Tab

    function State(): AssessmentState
      reads this
    {
      AssessmentState(questions, index, selected, answers, progress, results, hasResults, tab)
    }

    constructor()
      ensures State() == FreshAssessment
    {
      questions, index, selected, answers := [], 0, "", [];
      progress, results, hasResults, tab := 0.0, None, false, ChatTab;
    }

    /** `loadAssessmentQuestions`' subscriber. */
    method LoadQuestions(qs: seq<Question>)
      modifies this
      ensures State() == old(State()).(questions := qs).ProgressUpdated()
    {
      questions := qs;
      UpdateProgress();
    }

    method UpdateProgress()
      modifies this
      ensures State() == old(State()).ProgressUpdated()
    {
      if |questions| > 0 {
        progress := Progress(index, |questions|);
      }
    }

    /** `selectOption`. */
    method Select(value: string)
      modifies this
      ensures State() == old(State()).(selected := value)
    {
      selected := value;
    }

    /** `switchTab`. */
    method SwitchTab(t: Tab)
      modifies this
      ensures State() == old(State()).(tab := t)
    {
      tab := t;
    }

    method Record()
      modifies this
      requires State().Valid() && State().CurrentAnswer().Some?
      ensures State() == old(State()).(answers := Recorded(old(answers), old(index), old(State()).CurrentAnswer().value))
    {
      var a := AssessmentAnswer(questions[index].question, selected, CategoryOf(questions[index].options, selected));
      if index == |answers| {
        answers := answers + [a];
      } else {
        answers := answers[index := a];
      }
    }

    method NextQuestion()
      modifies this
      requires State().Valid()
      ensures State() == Next(old(State()))
    {
      if selected != "" && index < |questions| {
        Record();
        index := index + 1;
        selected := "";
        UpdateProgress();
      }
    }

    method PreviousQuestion()
      modifies this
      ensures State() == Previous(old(State()))
    {
      if index > 0 {
        index := index - 1;
        selected := if index < |answers| then answers[index].answer else "";
        UpdateProgress();
      }
    }

    method FinishAssessment()
      modifies this
      requires State().Valid()
      ensures State() == Finished(old(State()))
    {
      if selected != "" && index < |questions| {
        Record();
      }
    }

    method ReceiveAnalysis(r: Option<string>)
      modifies this
      ensures State() == Analysed(old(State()), r)
    {
      if r.Some? {
        results, hasResults := r, true;
        SwitchTab(ResultsTab);
      }
    }

    method StartNewAssessment()
      modifies this
      ensures State() == NewStarted(old(State()))
    {
      index, selected, answers, progress, results, hasResults := 0, "", [], 0.0, None, false;
      UpdateProgress();
      SwitchTab(AssessmentTab);
    }

    method Reset()
      modifies this
      ensures State() == AssessmentReset(old(State()))
    {
      index, selected, answers, progress, results, hasResults := 0, "", [], 0.0, None, false;
      tab := ChatTab;
    }
  }

  // ------------------------------------------------------------ resetting

  /** The four keys `resetChat` removes; the buyer's data stays. */
  function ChatKeys(w: Widget): set<string>
  {
    {w.keys.messages, w.keys.count, w.keys.blocked, w.keys.pending}
  }

  /** `resetChat`'s effect on the chat: emptied, nothing loading, the modals closed, the keys removed, the welcome. */
  function ChatReset(w: Widget, v: ChatView, greeting: string): ChatView
  {
    Welcomed(w, ModalsClosed(Emptied(InputCleared(v), ChatKeys(w))), greeting)
  }

  method ResetChat(c: ChatWidget, a: Assessment, p: PersonalForm, greeting: string)
    modifies c, c.browser, a, p
    ensures c.View() == ChatReset(c.widget, old(c.View()), greeting)
    ensures a.State() == AssessmentReset(old(a.State()))
    ensures p.info == map[] && !p.shown
  {
    c.ClearInput();
    c.Empty(ChatKeys(c.widget));
    c.CloseModals();
    p.Hide();
    a.Reset();
    p.Clear();
    c.Welcome(greeting);
  }

  /**
   * `resetChat` leaves the welcome alone on screen, a zero counter stored as
   * "0", no block, no modal, and neither the conversation, the block nor a
   * pending message in storage; the buyer's data and the paid state stay.
   */
  lemma ResetChatLeavesOneWelcome(w: Widget, v: ChatView, greeting: string)
    requires WellKeyed(w) && ApartFromShared(w) && !w.savesEveryPost
    ensures var r := ChatReset(w, v, greeting);
      && r.messages == [Said(greeting)] && r.count == 0 && r.blocked == None && r.paid == v.paid
      && r.input == [] && !r.loading && !r.dataModal && !r.paymentModal && !r.processing && r.paymentError == None
      && CountOf(RawItem(r.session, w.keys.count)) == 0
      && w.keys.messages !in r.session && w.keys.blocked !in r.session && w.keys.pending !in r.session
      && Untouched(r.session, v.session, UserDataKey)
  {
    var u := ModalsClosed(InputCleared(v));
    assert ModalsClosed(Emptied(InputCleared(v), ChatKeys(w))) == Emptied(u, ChatKeys(w));
    var v0 := Emptied(u, ChatKeys(w));
    ResetLeavesOneWelcome(w, u, ChatKeys(w), greeting);
    CountSavedTouchesOnly(w, v0.(count := 0), w.keys.messages);
    CountSavedTouchesOnly(w, v0.(count := 0), UserDataKey);
  }

  // ------------------------------------------------- this widget's rules

  /**
   * Unpaid, the fourth message is held back: stored as pending, nothing
   * counted or shown, the payment modal closed and the data modal opened.
   */
  lemma FourthMessageHeldBack(v: ChatView, savedAt: string)
    requires Accepts(v) && !v.paid && v.count >= 3
    ensures var r := Sent(Config, v, NoExtras, savedAt);
      && r.count == v.count && r.messages == v.messages
      && RawItem(r.session, Config.keys.pending) == Some(Trim(v.input))
      && r.dataModal && !r.paymentModal
  {
    ConfigFits();
    InterceptHoldsBack(Config, v, NoExtras, savedAt);
  }

  /** A reply blocks exactly when the user is unpaid and has sent four messages. */
  lemma BlocksFromFourthReply(v: ChatView, text: string, id: string, savedAt: string)
    requires v.blocked != Some(id)
    ensures Received(Config, v, Reply(text), id, NoExtras, savedAt).blocked == Some(id)
        <==> !v.paid && v.count >= 4
  {
    ConfigFits();
    ReplyBlocksIff(Config, v, text, id, NoExtras, savedAt);
  }

  /**
   * The history sent is the last ten messages at most, the new user message
   * last, the user's as `user` and the others as `counselor`.
   */
  lemma HistoryIsLastTen(v: ChatView)
    requires Accepts(v) && !Intercepts(Config, v)
    ensures Requested(Config, v)
         == Some(ChatRequest(Trim(v.input), Some(Turns("counselor", LastN(v.messages + [Message(true, Trim(v.input), None)], 10)))))
  {
    ConfigFits();
    RequestedAfterAdding(Config, v);
  }
}
