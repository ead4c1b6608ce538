/**
 * The buyer-data form that every paid service opens before checkout
 * (Ecos-oraculo/src/app/components/recolecta-datos/recolecta-datos.component.ts):
 * e-mail validation, the two consent boxes, storing the buyer, and, when the
 * form is asked to take payment, the snapshot, the order and the redirect.
 */
module DataCollection {
  import opened Wrappers
  import opened Text
  import opened Records
  import opened BrowserState
  import opened PaymentService

  // ------------------------------------------------------------- e-mail

  const EmailRequired := "El email es obligatorio"
  const EmailInvalid := "Ingresa un email válido"

  /** A character the class `[^\s@]` accepts. */
  predicate Plain(c: char)
  {
    !IsSpace(c) && c != '@'
  }

  predicate AllPlain(s: string)
  {
    forall i :: 0 <= i < |s| ==> Plain(s[i])
  }

  /**
   * `/^[^\s@]+@[^\s@]+\.[^\s@]+$/.test(s)`, read as the regular expression
   * reads: some split of `s` into a non-empty plain part, `@`, a non-empty
   * plain part, `.`, and a non-empty plain part.
   */
  predicate EmailPattern(s: string)
  {
    exists at, dot | 0 < at < |s| && at + 1 < dot < |s| - 1 ::
      s[at] == '@' && s[dot] == '.' && AllPlain(s[..at]) && AllPlain(s[at + 1..dot]) && AllPlain(s[dot + 1..])
  }

  /** An accepted address has exactly one `@`, no white space, and a `.` after the `@`. */
  lemma PatternShape(s: string)
    requires EmailPattern(s)
    ensures forall i :: 0 <= i < |s| ==> !IsSpace(s[i])
    ensures exists at :: 0 < at < |s| && s[at] == '@' && (forall i :: 0 <= i < |s| && i != at ==> s[i] != '@') && '.' in s[at + 2..]
  {
    var at, dot :| 0 < at < |s| && at + 1 < dot < |s| - 1 && s[at] == '@' && s[dot] == '.'
      && AllPlain(s[..at]) && AllPlain(s[at + 1..dot]) && AllPlain(s[dot + 1..]);
    forall i | 0 <= i < |s| ensures !IsSpace(s[i]) && (i != at ==> s[i] != '@') {
      if i < at {
        assert s[i] == s[..at][i];
      } else if at < i < dot {
        assert s[i] == s[at + 1..dot][i - at - 1];
      } else if dot < i {
        assert s[i] == s[dot + 1..][i - dot - 1];
      }
    }
    assert s[at + 2..][dot - at - 2] == '.';
  }

  /** The errors `validateUserData` records. */
  function ValidationErrors(email: string): (errors: map<string, string>)
  {
    if Trim(email) == "" then map["email" := EmailRequired]
    else if !EmailPattern(Trim(email)) then map["email" := EmailInvalid]
    else map[]
  }

  /**
   * The e-mail is required and must match the pattern once trimmed; no other
   * field is checked, and a valid e-mail leaves no error at all.
   */
  lemma ValidationErrorsMeaning(email: string)
    ensures ValidationErrors(email).Keys <= {"email"}
    ensures IsBlank(email) ==> ValidationErrors(email) == map["email" := EmailRequired]
    ensures !IsBlank(email) && !EmailPattern(Trim(email)) ==> ValidationErrors(email) == map["email" := EmailInvalid]
    ensures ValidationErrors(email) == map[] <==> EmailPattern(Trim(email))
  {
    TrimEmptyIffBlank(email);
    if Trim(email) == "" {
      assert "email" in ValidationErrors(email);
      assert !EmailPattern(Trim(email));
    } else if !EmailPattern(Trim(email)) {
      assert "email" in ValidationErrors(email);
    }
  }

  /** A blank e-mail never passes, so the second empty-e-mail check in `submitUserData` cannot fire. */
  lemma ValidEmailIsNotEmpty(email: string)
    ensures ValidationErrors(email) == map[] ==> Trim(email) != ""
  {
    if Trim(email) == "" {
      assert "email" in ValidationErrors(email);
    }
  }

  // ------------------------------------------------------------ the buyer

  /** What the form stores as `userData`: trimmed values, with `Usuario` and `Ecos` for empty names. */
  function Buyer(input: UserData): (u: UserData)
    ensures u.email == Trim(input.email)
    ensures u.firstName != "" && u.lastName != ""
    ensures Trim(input.firstName) != "" ==> u.firstName == Trim(input.firstName)
    ensures Trim(input.firstName) == "" ==> u.firstName == "Usuario"
    ensures Trim(input.lastName) != "" ==> u.lastName == Trim(input.lastName)
    ensures Trim(input.lastName) == "" ==> u.lastName == "Ecos"
  {
    UserData(Trim(input.email), OrElse(Trim(input.firstName), "Usuario"), OrElse(Trim(input.lastName), "Ecos"))
  }

  /** Storing a buyer a second time changes nothing: its fields are already trimmed and filled. */
  lemma BuyerIdempotent(input: UserData)
    ensures Buyer(Buyer(input)) == Buyer(input)
  {
    TrimIdempotent(input.email);
    TrimUnchanged("Usuario");
    TrimUnchanged("Ecos");
    FilledIdempotent(input.firstName, "Usuario");
    FilledIdempotent(input.lastName, "Ecos");
  }

  /** Trimming and filling a field a second time gives the same value. */
  lemma FilledIdempotent(x: string, fallback: string)
    requires fallback != "" && Trim(fallback) == fallback
    ensures OrElse(Trim(OrElse(Trim(x), fallback)), fallback) == OrElse(Trim(x), fallback)
  {
    TrimIdempotent(x);
  }

  /** The order the form asks for: the service's figures and the stored buyer. */
  function BuyerOrder(buyer: UserData, service: ServiceConfig): OrderInput
  {
    OrderInput(Some(service.amount), Some(service.serviceName), Some(service.serviceId), Some(buyer.firstName),
               Some(buyer.lastName), Some(buyer.email), Some("services"), Some(service.description))
  }

  /** Every field is supplied, so none of the service's defaults reaches the back end. */
  lemma BuyerOrderUsesNoDefaults(buyer: UserData, service: ServiceConfig)
    ensures WithDefaults(BuyerOrder(buyer, service))
            == OrderData(service.amount, service.serviceName, service.serviceId, buyer.firstName,
                         buyer.lastName, buyer.email, "services", service.description)
  {
    WithDefaultsExtremes(OrderData(service.amount, service.serviceName, service.serviceId, buyer.firstName,
                                   buyer.lastName, buyer.email, "services", service.description));
  }

  const PaymentFailed := "Error al procesar el pago. Intenta nuevamente."

  const DefaultService := ServiceConfig("1", "Lectura de cartas tarot", 15000, "Lectura personalizada de cartas del tarot")

  // ------------------------------------------------------------- the form

  /** Everything `submitUserData` and its helpers can change: the form's fields, its outputs and the browser. */
  datatype FormView = FormView(
    userData: UserData,
    aceptaTerminos: bool, showTerminosError: bool,
    datosVeridicos: bool, showDatosVeridicosError: bool,
    errors: map<string, string>,
    isValidatingData: bool, isProcessingPayment: bool, attempted: bool,
    submitted: seq<UserData>, closings: nat, ordersSent: seq<OrderData>,
    session: Storage, local: Storage, navigation: Option<string>)

  /** `validateUserData`: the previous errors are dropped and the e-mail checked again. */
  function Validated(v: FormView): FormView
  {
    v.(errors := ValidationErrors(v.userData.email))
  }

  /** The first line of `submitUserData`. */
  function Attempted(v: FormView): FormView
  {
    v.(attempted := true)
  }

  /** Both box messages hidden, before the boxes are checked. */
  function MessagesCleared(v: FormView): FormView
  {
    v.(showTerminosError := false, showDatosVeridicosError := false)
  }

  /** The buyer stored in `sessionStorage` under `userData`, with the form marked busy. */
  function BuyerStored(v: FormView, buyer: UserData): FormView
  {
    v.(isValidatingData := true, session := v.session["userData" := Json(UserDoc(buyer))])
  }

  /** `onDataSubmitted.emit(buyer)`. */
  function Emitted(v: FormView, buyer: UserData): FormView
  {
    v.(submitted := v.submitted + [buyer])
  }

  /** The snapshot saved and the order posted, with the payment marked under way. */
  function OrderPosted(v: FormView, service: ServiceConfig, buyer: UserData, savedAt: string): FormView
  {
    v.(isProcessingPayment := true,
       local := SavedPaymentData(v.local, BuyerSnapshot(buyer, service), savedAt),
       ordersSent := v.ordersSent + [WithDefaults(BuyerOrder(buyer, service))])
  }

  /** The `catch` of `processPaymentWithMercadoPago`. */
  function PaymentFailure(v: FormView): FormView
  {
    v.(errors := v.errors["general" := PaymentFailed], isValidatingData := false, isProcessingPayment := false)
  }

  /**
   * `processPaymentWithMercadoPago`: the snapshot is saved and the order
   * posted; a failed request (`order == None`) lands in the `catch`; an
   * answer emits the buyer and then redirects, and an answer with neither
   * address makes the redirect throw into the `catch`.
   */
  function Checkout(v: FormView, service: ServiceConfig, buyer: UserData, order: Option<OrderReply>, savedAt: string): FormView
  {
    var posted := OrderPosted(v, service, buyer, savedAt);
    if order.None? then PaymentFailure(posted)
    else if CheckoutUrl(order.value) == "" then PaymentFailure(Emitted(posted, buyer))
    else Emitted(posted, buyer).(navigation := Some(CheckoutUrl(order.value)))
  }

  /**
   * `submitUserData`: validation, then the terms box, then the truthful-data
   * box; past them the buyer is stored and either emitted or sent to checkout.
   */
  function Submitted(v: FormView, service: ServiceConfig, processPayment: bool, order: Option<OrderReply>, savedAt: string): FormView
  {
    var checked := Validated(Attempted(v));
    if checked.errors != map[] then checked
    else if !v.aceptaTerminos then MessagesCleared(checked).(showTerminosError := true)
    else if !v.datosVeridicos then MessagesCleared(checked).(showDatosVeridicosError := true)
    else
      var stored := BuyerStored(MessagesCleared(checked), Buyer(v.userData));
      if processPayment then Checkout(stored, service, Buyer(v.userData), order, savedAt)
      else Emitted(stored.(isValidatingData := false), Buyer(v.userData))
  }

  /** `cancelDataModal`: the form closes only when no payment is under way. */
  function Cancelled(v: FormView): FormView
  {
    if v.isProcessingPayment then v else v.(closings := v.closings + 1)
  }

  /** All three gates of `submitUserData` pass. */
  predicate Passes(v: FormView)
  {
    ValidationErrors(v.userData.email) == map[] && v.aceptaTerminos && v.datosVeridicos
  }

  /** A rejected e-mail stops the submission with its error recorded and nothing else changed. */
  lemma SubmitStopsAtEmail(v: FormView, service: ServiceConfig, processPayment: bool, order: Option<OrderReply>, savedAt: string)
    requires ValidationErrors(v.userData.email) != map[]
    ensures Submitted(v, service, processPayment, order, savedAt) == v.(attempted := true, errors := ValidationErrors(v.userData.email))
  {
  }

  /**
   * The boxes in order: past the e-mail both messages are cleared, the terms
   * box is checked first, and the truthful-data box only when the terms box
   * is ticked.
   */
  lemma SubmitChecksBoxesInOrder(v: FormView, service: ServiceConfig, processPayment: bool, order: Option<OrderReply>, savedAt: string)
    requires ValidationErrors(v.userData.email) == map[]
    ensures Submitted(v, service, processPayment, order, savedAt).showTerminosError == !v.aceptaTerminos
    ensures Submitted(v, service, processPayment, order, savedAt).showDatosVeridicosError == (v.aceptaTerminos && !v.datosVeridicos)
    ensures Submitted(v, service, processPayment, order, savedAt).attempted
  {
  }

  /** A submission stopped at a gate stores, emits, posts and redirects nothing. */
  lemma FailedSubmitChangesNothingOutside(v: FormView, service: ServiceConfig, processPayment: bool, order: Option<OrderReply>, savedAt: string)
    requires !Passes(v)
    ensures var w := Submitted(v, service, processPayment, order, savedAt);
      && w.submitted == v.submitted && w.ordersSent == v.ordersSent
      && w.session == v.session && w.local == v.local && w.navigation == v.navigation
      && w.isValidatingData == v.isValidatingData && w.isProcessingPayment == v.isProcessingPayment
  {
  }

  /** Past the gates the trimmed, filled-in buyer is what `sessionStorage` reads back as `userData`. */
  lemma PassedSubmitStoresBuyer(v: FormView, service: ServiceConfig, processPayment: bool, order: Option<OrderReply>, savedAt: string)
    requires Passes(v)
    ensures Submitted(v, service, processPayment, order, savedAt).session == v.session["userData" := Json(UserDoc(Buyer(v.userData)))]
    ensures ReadUser(Submitted(v, service, processPayment, order, savedAt).session, "userData") == Parsed(Buyer(v.userData))
  {
  }

  /** In data-only mode the buyer is emitted once and nothing reaches the payment side. */
  lemma DataOnlySubmitEmits(v: FormView, service: ServiceConfig, order: Option<OrderReply>, savedAt: string)
    requires Passes(v)
    ensures var w := Submitted(v, service, false, order, savedAt);
      && w.submitted == v.submitted + [Buyer(v.userData)] && w.errors == map[]
      && w.ordersSent == v.ordersSent && w.local == v.local && w.navigation == v.navigation
      && !w.isValidatingData && w.isProcessingPayment == v.isProcessingPayment
  {
  }

  /**
   * In checkout mode the snapshot is in `localStorage` whatever the order's
   * fate, and exactly one order goes out, with the service's figures and the
   * stored buyer and none of the service's defaults.
   */
  lemma CheckoutSavesBeforeOrdering(v: FormView, service: ServiceConfig, order: Option<OrderReply>, savedAt: string)
    requires Passes(v)
    ensures var w := Submitted(v, service, true, order, savedAt);
      && GetPaymentData(w.local) == Some(PaymentRecord(BuyerSnapshot(Buyer(v.userData), service), savedAt))
      && w.ordersSent == v.ordersSent + [OrderData(service.amount, service.serviceName, service.serviceId,
                                                   Buyer(v.userData).firstName, Buyer(v.userData).lastName,
                                                   Buyer(v.userData).email, "services", service.description)]
  {
    var w := Submitted(v, service, true, order, savedAt);
    BuyerOrderUsesNoDefaults(Buyer(v.userData), service);
    SaveThenGet(v.local, BuyerSnapshot(Buyer(v.userData), service), savedAt);
  }

  /**
   * The outcome of checkout: with a payment address the buyer is emitted and
   * the browser sent there, the form staying busy; otherwise the general
   * error is shown, the form is released and the browser stays, the buyer
   * having been emitted only if the order came back.
   */
  lemma CheckoutOutcome(v: FormView, service: ServiceConfig, order: Option<OrderReply>, savedAt: string)
    requires Passes(v)
    ensures var w := Submitted(v, service, true, order, savedAt);
      order.Some? && CheckoutUrl(order.value) != "" ==>
        && w.submitted == v.submitted + [Buyer(v.userData)] && w.navigation == Some(CheckoutUrl(order.value))
        && w.isValidatingData && w.isProcessingPayment && w.errors == map[]
    ensures var w := Submitted(v, service, true, order, savedAt);
      order.None? || CheckoutUrl(order.value) == "" ==>
        && w.submitted == v.submitted + (if order.Some? then [Buyer(v.userData)] else [])
        && w.navigation == v.navigation && !w.isValidatingData && !w.isProcessingPayment
        && w.errors == map["general" := PaymentFailed]
  {
  }

  /** `hasError(field)`: a field's message is shown only after a submission was attempted, and only when non-empty. */
  predicate ErrorShown(v: FormView, field: string)
  {
    v.attempted && field in v.errors && v.errors[field] != ""
  }

  /**
   * What the form shows for the e-mail: no error before the first attempt;
   * after a submission, the e-mail error exactly when the e-mail is rejected,
   * worded for a blank or a malformed address.
   */
  lemma EmailErrorShownAfterSubmit(v: FormView, service: ServiceConfig, processPayment: bool, order: Option<OrderReply>, savedAt: string, field: string)
    ensures !v.attempted ==> !ErrorShown(v, field)
    ensures var w := Submitted(v, service, processPayment, order, savedAt);
      ErrorShown(w, "email") <==> !EmailPattern(Trim(v.userData.email))
    ensures var w := Submitted(v, service, processPayment, order, savedAt);
      ErrorShown(w, "email") ==> w.errors["email"] == if IsBlank(v.userData.email) then EmailRequired else EmailInvalid
  {
    ValidationErrorsMeaning(v.userData.email);
  }

  /**
   * After a submission no field shows an error besides the e-mail and the
   * general one, and the general one shows exactly when every gate passed
   * and checkout failed.
   */
  lemma OtherErrorsShownAfterSubmit(v: FormView, service: ServiceConfig, processPayment: bool, order: Option<OrderReply>, savedAt: string, field: string)
    ensures var w := Submitted(v, service, processPayment, order, savedAt);
      ErrorShown(w, field) ==> field == "email" || field == "general"
    ensures var w := Submitted(v, service, processPayment, order, savedAt);
      ErrorShown(w, "general") <==> Passes(v) && processPayment && (order.None? || CheckoutUrl(order.value) == "")
  {
    ValidationErrorsMeaning(v.userData.email);
  }

  /** Once `validateUserData` accepts the e-mail, no field shows an error. */
  lemma AcceptedFormShowsNoError(v: FormView, field: string)
    requires EmailPattern(Trim(v.userData.email))
    ensures !ErrorShown(Validated(v), field)
    ensures !ErrorShown(Validated(Attempted(v)), field)
  {
    ValidationErrorsMeaning(v.userData.email);
  }

  /** The form never closes while a payment is under way, and otherwise closes once. */
  lemma CancelOnlyWhenIdle(v: FormView)
    ensures Cancelled(v).closings == if v.isProcessingPayment then v.closings else v.closings + 1
    ensures Cancelled(v).(closings := v.closings) == v
  {
  }

  class DataForm {
    /** The three text boxes. */
    var userData: UserData
    var aceptaTerminos: bool
    var showTerminosError: bool
    var datosVeridicos: bool
    var showDatosVeridicosError: bool
    var dataFormErrors: map<string, string>
    var isValidatingData: bool
    var isProcessingPayment: bool
    var attemptedDataSubmission: bool
    /** The `@Input()`s. */
    const serviceConfig: ServiceConfig
    const processPayment: bool
    /** What `onDataSubmitted` has emitted, oldest first. */
    var submitted: seq<UserData>
    /** How many times `onModalClosed` has fired. */
    var closings: nat
    /** The bodies posted by `createOrder`, oldest first. */
    var ordersSent: seq<OrderData>
    const browser: Browser

    /** The fields and the browser state, as one value. */
    function View(): FormView
      reads this, browser
    {
      FormView(userData, aceptaTerminos, showTerminosError, datosVeridicos, showDatosVeridicosError,
               dataFormErrors, isValidatingData, isProcessingPayment, attemptedDataSubmission,
               submitted, closings, ordersSent, browser.session, browser.local, browser.navigation)
    }

    constructor(browser: Browser, serviceConfig: ServiceConfig, processPayment: bool)
      ensures this.browser == browser && this.serviceConfig == serviceConfig && this.processPayment == processPayment
      ensures userData == UserData("", "", "") && dataFormErrors == map[]
      ensures !aceptaTerminos && !showTerminosError && !datosVeridicos && !showDatosVeridicosError
      ensures !isValidatingData && !isProcessingPayment && !attemptedDataSubmission
      ensures submitted == [] && closings == 0 && ordersSent == []
    {
      this.browser := browser;
      this.serviceConfig := serviceConfig;
      this.processPayment := processPayment;
      userData := UserData("", "", "");
      aceptaTerminos, showTerminosError := false, false;
      datosVeridicos, showDatosVeridicosError := false, false;
      dataFormErrors := map[];
      isValidatingData, isProcessingPayment, attemptedDataSubmission := false, false, false;
      submitted, closings, ordersSent := [], 0, [];
    }

    /** `validateUserData`. */
    method ValidateUserData() returns (isValid: bool)
      modifies this
      ensures View() == Validated(old(View()))
      ensures isValid <==> dataFormErrors == map[]
    {
      dataFormErrors := ValidationErrors(userData.email);
      isValid := dataFormErrors == map[];
    }

    /** `hasError(field)`: what the form shows for the field in its current state. */
    function HasError(field: string): (shown: bool)
      reads this, browser
      ensures shown ==> attemptedDataSubmission
      ensures shown == ErrorShown(View(), field)
    {
      attemptedDataSubmission && field in dataFormErrors && dataFormErrors[field] != ""
    }

    /**
     * `submitUserData`. `order` is what `createOrder` answers, `None` when
     * the request fails; `savedAt` is the snapshot's time stamp.
     */
    method SubmitUserData(order: Option<OrderReply>, savedAt: string)
      modifies this, browser
      ensures View() == Submitted(old(View()), serviceConfig, processPayment, order, savedAt)
      ensures browser.location == old(browser.location)
    {
      MarkAttempted();
      var isValid := ValidateUserData();
      if !isValid {
        return;
      }
      ClearMessages();
      if !aceptaTerminos {
        ShowTermsError();
        return;
      }
      if !datosVeridicos {
        ShowDataError();
        return;
      }
      var buyer := Buyer(userData);
      StoreBuyer(buyer);
      if processPayment {
        ProcessPaymentWithMercadoPago(buyer, order, savedAt);
      } else {
        EndValidation();
        Emit(buyer);
      }
    }

    /** `attemptedDataSubmission = true`. */
    method MarkAttempted()
      modifies this
      ensures View() == Attempted(old(View()))
    {
      attemptedDataSubmission := true;
    }

    /** `showTerminosError = true`. */
    method ShowTermsError()
      modifies this
      ensures View() == old(View()).(showTerminosError := true)
    {
      showTerminosError := true;
    }

    /** `showDatosVeridicosError = true`. */
    method ShowDataError()
      modifies this
      ensures View() == old(View()).(showDatosVeridicosError := true)
    {
      showDatosVeridicosError := true;
    }

    /** `isValidatingData = false`. */
    method EndValidation()
      modifies this
      ensures View() == old(View()).(isValidatingData := false)
    {
      isValidatingData := false;
    }

    /** `showTerminosError = false; showDatosVeridicosError = false`. */
    method ClearMessages()
      modifies this
      ensures View() == MessagesCleared(old(View()))
    {
      showTerminosError := false;
      showDatosVeridicosError := false;
    }

    /** `isValidatingData = true` and `sessionStorage.setItem('userData', ...)`. */
    method StoreBuyer(buyer: UserData)
      modifies this, browser
      ensures View() == BuyerStored(old(View()), buyer)
      ensures browser.location == old(browser.location)
    {
      isValidatingData := true;
      browser.SetSession("userData", Json(UserDoc(buyer)));
    }

    /** `onDataSubmitted.emit(buyer)`. */
    method Emit(buyer: UserData)
      modifies this
      ensures View() == Emitted(old(View()), buyer)
    {
      submitted := submitted + [buyer];
    }

    /** `processPaymentWithMercadoPago(buyer)`. */
    method ProcessPaymentWithMercadoPago(buyer: UserData, order: Option<OrderReply>, savedAt: string)
      modifies this, browser
      ensures View() == Checkout(old(View()), serviceConfig, buyer, order, savedAt)
      ensures browser.location == old(browser.location)
    {
      PostOrder(buyer, savedAt);
      if order.None? {
        PaymentCatch();
        return;
      }
      Emit(buyer);
      ghost var emitted := View();
      var redirected := RedirectToPayment(browser, CheckoutUrl(order.value));
      if redirected.Failure? {
        PaymentCatch();
      } else {
        assert View() == emitted.(navigation := Some(CheckoutUrl(order.value)));
      }
    }

    /** The first half of the `try`: the snapshot is saved, then `createOrder` is called. */
    method PostOrder(buyer: UserData, savedAt: string)
      modifies this, browser
      ensures View() == OrderPosted(old(View()), serviceConfig, buyer, savedAt)
      ensures browser.location == old(browser.location)
    {
      isProcessingPayment := true;
      SavePaymentData(browser, BuyerSnapshot(buyer, serviceConfig), savedAt);
      ordersSent := ordersSent + [WithDefaults(BuyerOrder(buyer, serviceConfig))];
    }

    /** The `catch`: the general error shown and the form released. */
    method PaymentCatch()
      modifies this
      ensures View() == PaymentFailure(old(View()))
    {
      dataFormErrors := dataFormErrors["general" := PaymentFailed];
      isValidatingData := false;
      isProcessingPayment := false;
    }

    /** `cancelDataModal`. */
    method CancelDataModal()
      modifies this
      ensures View() == Cancelled(old(View()))
    {
      if !isProcessingPayment {
        closings := closings + 1;
      }
    }
  }
}
