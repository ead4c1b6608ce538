/**
 * The birth chart (`tabla-nacimiento`): the paywall with one free message,
 * a fallback text that stands in for every failed answer, the non-blank
 * messages sent as history, and the chart data the user enters, kept in
 * the session and in the snapshot saved before checkout. The chart data and
 * its form are the component's fields beside the chat, kept in a class of
 * their own.
 */
module BirthChart {
  import opened Wrappers
  import opened Text
  import opened Records
  import opened PaymentService
  import opened Paywall
  import opened PaywallLaws
  import opened PaywallReturns
  import opened ChatWidgets

  const Confirmation := "✨ **¡Pago confirmado exitosamente!** ✨\n\n🌟 Ahora tienes acceso completo e ilimitado a mis servicios de lectura de carta natal.\n\nLas configuraciones celestiales se revelan ante ti. Puedes preguntarme lo que desees sobre tu carta natal, planetas, casas astrológicas y todos los secretos que las estrellas guardan para ti.\n\n¿Qué aspecto de tu carta natal quieres explorar?"

  /** The welcome of `initializeBirthChartWelcomeMessage`, the greeting the widget's resets and initialisation are given. */
  const Welcome := "🌟 ¡Hola, buscador de los secretos celestiales! Soy Emma, tu guía en el cosmos de las configuraciones astrales. \n\nEstoy aquí para descifrar los secretos ocultos en tu carta natal. Las estrellas han esperado este momento para revelarte su sabiduría.\n\n¿Qué aspecto de tu carta natal deseas explorar primero?"

  /** The text `generateAstrologicalResponse` answers with when the service fails or has no answer. */
  const Fallback := "🌟 Las configuraciones celestiales están temporalmente nubladas. Las estrellas me susurran que debo recargar mis energías cósmicas. Por favor, intenta de nuevo en unos momentos."

  /** `birthChartServiceConfig`. */
  const Service := ServiceConfig("7", "Tabla de Nacimiento", 18000, "Acceso completo a lecturas de carta natal ilimitadas")

  const Config := Widget(
    2,
    Keys("hasUserPaidForBirthTable_geburtstabelle", "birthChartMessages", "birthChartUserMessageCount",
         "birthChartBlockedMessageId", "pendingBirthChartMessage", None),
    "6", "conversationHistory", map[],
    "astrologer", NonBlank,
    false, true, false, false, false, true,
    Confirmation, "", "", "")

  /** Where `saveChartData` keeps the chart data in the session. */
  const ChartKey := "birthChartData"

  /** The widget's keys are apart from each other, from the shared ones and from the chart data's. */
  lemma ConfigFits()
    ensures WellKeyed(Config) && ApartFromShared(Config) && ExtrasFit(Config, NoExtras)
    ensures ChartKey !in OwnKeys(Config) && ChartKey != UserDataKey
  {
  }

  // ------------------------------------------------------------- answers

  /**
   * `generateAstrologicalResponse`: a successful non-empty text, or else the
   * fallback, since the failure is caught inside the request. Every answer is
   * therefore a reply, and the subscriber's error handler is never reached.
   */
  function AnswerOf(reply: ServiceReply): (a: Answer)
    ensures a.Reply?
    ensures a.text == (if reply.Responded? && reply.success && reply.response != "" then reply.response else Fallback)
  {
    match reply
    case Responded(success, text) => if success && text != "" then Reply(text) else Reply(Fallback)
    case Failed => Reply(Fallback)
  }

  /** Even the fallback is given an id, and is blocked once the free message is used up. */
  lemma FallbackCanBlock(v: ChatView, reply: ServiceReply, id: string, e: Extras, savedAt: string)
    requires ExtrasFit(Config, e) && BlockDue(Config, v)
    ensures var r := Received(Config, v, AnswerOf(reply), id, e, savedAt);
      r.blocked == Some(id) && IsBlocked(r, r.messages[|r.messages| - 1])
  {
    ConfigFits();
    ReplyBlocks(Config, v, AnswerOf(reply).text, id, e, savedAt);
  }

  // ------------------------------------------------------------ chart data

  /** `chartData`, the four fields bound to the form, and `showDataForm`. */
  datatype ChartState = ChartState(chart: map<string, string>, fullName: string, birthDate: string,
                                   birthTime: string, birthPlace: string, shown: bool)

  const FreshChart := ChartState(map[], "", "", "", "", false)

  /** The four form fields as an object. */
  function FormFields(s: ChartState): map<string, string>
  {
    map["fullName" := s.fullName, "birthDate" := s.birthDate, "birthTime" := s.birthTime, "birthPlace" := s.birthPlace]
  }

  /** What `saveChartData` stores: `{...chartData, ...fields}`, the form winning. */
  function SessionCopy(s: ChartState): map<string, string>
  {
    s.chart + FormFields(s)
  }

  /** What the snapshot holds: `{...fields, ...chartData}`, the chart data winning. */
  function SnapshotCopy(s: ChartState): map<string, string>
  {
    FormFields(s) + s.chart
  }

  /** `m.field || ''`. */
  function FieldOr(m: map<string, string>, field: string): string
  {
    if field in m then m[field] else ""
  }

  /** The chart data taken over from a saved object, each field from it or empty. */
  function Adopted(s: ChartState, m: map<string, string>): (r: ChartState)
    ensures r.chart == m && r.shown == s.shown
  {
    s.(chart := m, fullName := FieldOr(m, "fullName"), birthDate := FieldOr(m, "birthDate"),
       birthTime := FieldOr(m, "birthTime"), birthPlace := FieldOr(m, "birthPlace"))
  }

  /** `JSON.parse(getItem('birthChartData'))` guarded by `if (saved)`. */
  function ReadChart(session: Storage): (r: Parsed<map<string, string>>)
    ensures r == Absent <==> !HasItem(session, ChartKey)
    ensures r.Parsed? ==> session[ChartKey] == Json(FieldsDoc(r.value))
  {
    if !HasItem(session, ChartKey) then Absent
    else match session[ChartKey]
      case Json(FieldsDoc(m)) => Parsed(m)
      case _ => Malformed
  }

  /** The chart part of `loadSavedData`: the stored chart data taken over; a broken copy is ignored. */
  function ChartLoaded(s: ChartState, session: Storage): ChartState
  {
    match ReadChart(session)
    case Parsed(m) => Adopted(s, m)
    case _ => s
  }

  /** The chart part of the approved return: the snapshot's chart data, if any, taken over. */
  function ChartRestored(s: ChartState, record: Option<PaymentRecord>): ChartState
  {
    if record.Some? && record.value.snapshot.Attachment("chartData").Some? then
      Adopted(s, record.value.snapshot.Attachment("chartData").value)
    else s
  }

  /** `saveChartData`. */
  function ChartSaved(v: ChatView, s: ChartState): (r: ChatView)
    ensures r.messages == v.messages && r.local == v.local && Kept(r, v)
  {
    v.(session := v.session[ChartKey := Json(FieldsDoc(SessionCopy(s)))])
  }

  /** What `saveStateBeforePayment` adds to the common steps: the chart data in the session and in the snapshot. */
  function ChartExtras(s: ChartState): Extras
  {
    Extras(map["chartData" := SnapshotCopy(s)], map[ChartKey := Json(FieldsDoc(SessionCopy(s)))])
  }

  /**
   * The sign of `generateSampleChartData`'s table of twelve at position
   * `i % 12`, the table starting with the January sign.
   */
  function SignOf(i: nat): string
  {
    match i % 12
    case 0 => "Capricornio" case 1 => "Acuario" case 2 => "Piscis" case 3 => "Aries"
    case 4 => "Tauro" case 5 => "Géminis" case 6 => "Cáncer" case 7 => "Leo"
    case 8 => "Virgo" case 9 => "Libra" case 10 => "Escorpio" case _ => "Sagitario"
  }

  const SunKey := "sunSign"
  const MoonKey := "moonSign"
  const AscendantKey := "ascendant"

  /**
   * `generateSampleChartData` for the month index `getMonth()` gives (none
   * for a date that does not parse, whose signs become undefined): the sun
   * sign of the month, the moon sign four on, the ascendant eight on.
   */
  function WithSigns(chart: map<string, string>, monthIndex: Option<nat>): map<string, string>
  {
    match monthIndex
    case None => chart - {SunKey, MoonKey, AscendantKey}
    case Some(m) => chart[SunKey := SignOf(m)][MoonKey := SignOf(m + 4)][AscendantKey := SignOf(m + 8)]
  }

  /** Signs at positions apart on the wheel of twelve are different. */
  lemma SignsDistinct(i: nat, j: nat)
    requires i % 12 != j % 12
    ensures SignOf(i) != SignOf(j)
  {
  }

  /**
   * A chart of a parsed date holds the month's sun sign and the moon sign
   * and ascendant four and eight on; a date that does not parse leaves no
   * sign in the chart.
   */
  lemma SignsOfMonth(chart: map<string, string>, m: nat)
    ensures var r := WithSigns(chart, Some(m));
      && r[SunKey] == SignOf(m) && r[MoonKey] == SignOf(m + 4) && r[AscendantKey] == SignOf(m + 8)
      && r.Keys == chart.Keys + {SunKey, MoonKey, AscendantKey}
    ensures var r := WithSigns(chart, None); SunKey !in r && MoonKey !in r && AscendantKey !in r
  {
    assert SunKey[0] == 's' && MoonKey[0] == 'm' && AscendantKey[0] == 'a';
  }

  /** The three signs of a chart are different from each other. */
  lemma SignsDiffer(chart: map<string, string>, m: nat)
    ensures var r := WithSigns(chart, Some(m));
      r[SunKey] != r[MoonKey] && r[MoonKey] != r[AscendantKey] && r[SunKey] != r[AscendantKey]
  {
    SignsOfMonth(chart, m);
    SignsDistinct(m, m + 4);
    SignsDistinct(m + 4, m + 8);
    SignsDistinct(m, m + 8);
  }

  /** Different months give different sun signs. */
  lemma SunSignsDiffer(chart: map<string, string>, m: nat, n: nat)
    requires m < 12 && n < 12 && m != n
    ensures WithSigns(chart, Some(m))[SunKey] != WithSigns(chart, Some(n))[SunKey]
  {
    assert m % 12 == m && n % 12 == n;
    SignsDistinct(m, n);
    SignsOfMonth(chart, m);
    SignsOfMonth(chart, n);
  }

  /** `savePersonalData`'s effect on the chart data: the fields merged in, the signs set for a birth date, the form hidden. */
  function PersonalDataSaved(s: ChartState, monthIndex: Option<nat>): ChartState
  {
    var merged := s.chart + FormFields(s);
    s.(chart := if s.birthDate != "" then WithSigns(merged, monthIndex) else merged, shown := false)
  }

  /** The note `savePersonalData` adds. */
  function DataNote(s: ChartState): string
  {
    NoteStart + s.fullName + NoteAfterName + s.birthPlace + " el " + s.birthDate + NoteEnd
  }

  const NoteStart := "🌟 Perfecto, "
  const NoteAfterName := ". He registrado tus datos celestiales. Las configuraciones de tu nacimiento en "
  const NoteEnd := " revelan patrones únicos en el cosmos. ¿En qué aspecto específico de tu carta natal quieres concentrarte?"

  /** `savePersonalData`'s effect on the chat: the chart data stored, the note shown but not saved. */
  function DataNoted(w: Widget, v: ChatView, s: ChartState, monthIndex: Option<nat>): ChatView
  {
    Posted(w, ChartSaved(v, PersonalDataSaved(s, monthIndex)), Said(DataNote(s)))
  }

  /**
   * Saved chart data reads back from the session with the form's values,
   * whatever older values the chart data held for them.
   */
  lemma SessionCopyReadsBack(v: ChatView, s: ChartState, t: ChartState)
    ensures var r := ChartLoaded(t, ChartSaved(v, s).session);
      && r.fullName == s.fullName && r.birthDate == s.birthDate && r.birthTime == s.birthTime
      && r.birthPlace == s.birthPlace && r.chart == SessionCopy(s)
  {
    assert ReadChart(ChartSaved(v, s).session) == Parsed(SessionCopy(s));
  }

  /**
   * The chart data saved before checkout comes back after an approved return
   * with the chart data's own values where it holds them and the form's
   * elsewhere: a field edited after the last `savePersonalData` is lost.
   */
  lemma SnapshotCopyRestores(w: Widget, v: ChatView, text: string, s: ChartState, savedAt: string, t: ChartState)
    ensures var r := ChartRestored(t, GetPaymentData(Intercepted(w, v, text, ChartExtras(s), savedAt).local));
      && r.chart == SnapshotCopy(s)
      && r.fullName == (if "fullName" in s.chart then s.chart["fullName"] else s.fullName)
      && r.birthPlace == (if "birthPlace" in s.chart then s.chart["birthPlace"] else s.birthPlace)
  {
    var v1 := v.(paymentModal := PaymentModalAfterHold(w, v.paymentModal), session := v.session[w.keys.pending := Text(text)]);
    var v2 := ExtrasWritten(BlockedSaved(w, CountSaved(w, MessagesSaved(w, v1))), ChartExtras(s));
    var snapshot := Snapshot(w, v2, ChartExtras(s));
    SaveThenGet(v2.local, snapshot, savedAt);
    assert snapshot.Attachment("chartData") == Some(SnapshotCopy(s));
  }

  /** After `savePersonalData` the two copies agree: the chart data already holds the form's values. */
  lemma CopiesAgreeAfterSave(s: ChartState, monthIndex: Option<nat>)
    ensures var r := PersonalDataSaved(s, monthIndex);
      SnapshotCopy(r) == SessionCopy(r) == r.chart
  {
    var r := PersonalDataSaved(s, monthIndex);
    assert FormFields(r) == FormFields(s);
    assert forall k :: k in FormFields(s) ==> k in r.chart && r.chart[k] == FormFields(s)[k];
  }

  class ChartForm {
    var chart: map<string, string>
    var fullName: string
    var birthDate: string
    var birthTime: string
    var birthPlace: string
    var shown: bool

    function State(): ChartState
      reads this
    {
      ChartState(chart, fullName, birthDate, birthTime, birthPlace, shown)
    }

    constructor()
      ensures State() == FreshChart
    {
      chart, fullName, birthDate, birthTime, birthPlace, shown := map[], "", "", "", "", false;
    }

    /** The user types into the form. */
    method Fill(name: string, date: string, time: string, place: string)
      modifies this
      ensures State() == old(State()).(fullName := name, birthDate := date, birthTime := time, birthPlace := place)
    {
      fullName, birthDate, birthTime, birthPlace := name, date, time, place;
    }

    /** `toggleDataForm`. */
    method Toggle()
      modifies this
      ensures State() == old(State()).(shown := !old(shown))
    {
      shown := !shown;
    }

    method Adopt(m: map<string, string>)
      modifies this
      ensures State() == Adopted(old(State()), m)
    {
      chart := m;
      fullName, birthDate := FieldOr(m, "fullName"), FieldOr(m, "birthDate");
      birthTime, birthPlace := FieldOr(m, "birthTime"), FieldOr(m, "birthPlace");
    }

    method Load(session: Storage)
      modifies this
      ensures State() == ChartLoaded(old(State()), session)
    {
      match ReadChart(session) {
        case Parsed(m) => Adopt(m);
        case _ =>
      }
    }

    method Restore(record: Option<PaymentRecord>)
      modifies this
      ensures State() == ChartRestored(old(State()), record)
    {
      if record.Some? && record.value.snapshot.Attachment("chartData").Some? {
        Adopt(record.value.snapshot.Attachment("chartData").value);
      }
    }

    method SaveFields(monthIndex: Option<nat>)
      modifies this
      ensures State() == PersonalDataSaved(old(State()), monthIndex)
    {
      chart := chart + FormFields(State());
      if birthDate != "" {
        chart := WithSigns(chart, monthIndex);
      }
      shown := false;
    }
  }

  method SaveChartData(c: ChatWidget, f: ChartForm)
    modifies c.browser
    ensures c.View() == ChartSaved(old(c.View()), f.State())
  {
    c.browser.session := c.browser.session[ChartKey := Json(FieldsDoc(SessionCopy(f.State())))];
  }

  method SavePersonalData(c: ChatWidget, f: ChartForm, monthIndex: Option<nat>)
    modifies c, c.browser, f
    ensures c.View() == DataNoted(c.widget, old(c.View()), old(f.State()), monthIndex)
    ensures f.State() == PersonalDataSaved(old(f.State()), monthIndex)
  {
    var note := DataNote(f.State());
    f.SaveFields(monthIndex);
    SaveChartData(c, f);
    c.Post(Said(note));
  }

  // ---------------------------------------------------------- initialising

  /** `ngOnInit`'s chart part: the snapshot's on an approved return, else the session's when the conversation is loaded. */
  function InitialChart(w: Widget, v: ChatView, s: ChartState): ChartState
  {
    var v1 := Opened(w, v);
    if ApprovedQuery(v1.location.query) then ChartRestored(s, GetPaymentData(v1.local))
    else
      var v2 := UserLoaded(Returned(w, v1));
      if v2.messages == [] then ChartLoaded(s, v2.session) else s
  }

  /** `ngOnInit`; returns the message to replay 2 s later, if any. */
  method Init(c: ChatWidget, f: ChartForm, greeting: string) returns (replay: Option<string>)
    modifies c, c.browser, f
    ensures (c.View(), replay) == Initialised(c.widget, old(c.View()), greeting)
    ensures f.State() == InitialChart(c.widget, old(c.View()), old(f.State()))
  {
    var v1 := Opened(c.widget, c.View());
    var record := GetPaymentData(v1.local);
    var approved := ApprovedQuery(v1.location.query);
    var v2 := UserLoaded(Returned(c.widget, v1));
    replay := c.Init(greeting);
    if approved {
      f.Restore(record);
    } else if v2.messages == [] {
      f.Load(v2.session);
    }
  }

  // ------------------------------------------------------------ resetting

  /** The four keys `clearSessionData` removes, the chart data's among them. */
  function SessionKeys(w: Widget): set<string>
  {
    {w.keys.messages, w.keys.count, w.keys.blocked, ChartKey}
  }

  /** `clearChat`: emptied, nothing loading, the four keys removed, the welcome shown but not saved. */
  function ChatCleared(w: Widget, v: ChatView, greeting: string): ChatView
  {
    Welcomed(w, Emptied(InputCleared(v), SessionKeys(w)), greeting)
  }

  method ClearChat(c: ChatWidget, greeting: string)
    modifies c, c.browser
    ensures c.View() == ChatCleared(c.widget, old(c.View()), greeting)
  {
    c.ClearInput();
    c.Restart(SessionKeys(c.widget), greeting);
  }

  /**
   * `clearChat` leaves the welcome alone, a zero counter stored as "0", no
   * block, and neither the conversation, the block nor the chart data in
   * storage, although the form keeps its values on screen.
   */
  lemma ClearLeavesOneWelcome(w: Widget, v: ChatView, greeting: string)
    requires WellKeyed(w) && !w.savesEveryPost && ChartKey != w.keys.count && ChartKey != w.keys.messages
    ensures var r := ChatCleared(w, v, greeting);
      && r.messages == [Said(greeting)] && r.count == 0 && r.blocked == None && r.paid == v.paid
      && r.input == [] && !r.loading
      && CountOf(RawItem(r.session, w.keys.count)) == 0
      && w.keys.messages !in r.session && w.keys.blocked !in r.session && ChartKey !in r.session
  {
    var v0 := Emptied(InputCleared(v), SessionKeys(w));
    ResetLeavesOneWelcome(w, InputCleared(v), SessionKeys(w), greeting);
    CountSavedTouchesOnly(w, v0.(count := 0), w.keys.messages);
  }

  // ------------------------------------------------- this widget's rules

  /**
   * Unpaid, the second message is held back: stored as pending, nothing
   * counted or shown, the payment modal closed and the data modal opened.
   */
  lemma SecondMessageHeldBack(v: ChatView, s: ChartState, savedAt: string)
    requires Accepts(v) && !v.paid && v.count >= 1
    ensures var r := Sent(Config, v, ChartExtras(s), savedAt);
      && r.count == v.count && r.messages == v.messages
      && RawItem(r.session, Config.keys.pending) == Some(Trim(v.input))
      && r.dataModal && !r.paymentModal
  {
    ConfigFits();
    InterceptHoldsBack(Config, v, ChartExtras(s), savedAt);
  }

  /** A reply blocks exactly when the user is unpaid and has sent two messages. */
  lemma BlocksFromSecondReply(v: ChatView, text: string, id: string, s: ChartState, savedAt: string)
    requires v.blocked != Some(id)
    ensures Received(Config, v, Reply(text), id, ChartExtras(s), savedAt).blocked == Some(id)
        <==> !v.paid && v.count >= 2
  {
    ConfigFits();
    ReplyBlocksIff(Config, v, text, id, ChartExtras(s), savedAt);
  }

  /** The history sent is every non-blank message, the widget's as `astrologer`, then the new one. */
  lemma HistoryIsNonBlank(v: ChatView)
    requires Accepts(v) && !Intercepts(Config, v)
    ensures Requested(Config, v)
         == Some(ChatRequest(Trim(v.input),
                             Some(Turns("astrologer", NonBlankOnly(v.messages)) + [Turn("user", Trim(v.input))])))
  {
    ConfigFits();
    RequestHistory(Config, v);
  }
}
