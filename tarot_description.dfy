/**
 * The tarot reading's description page (`DescriptionComponent`): the text
 * assembled from one description per drawn card, the names of the three card
 * positions, the buyer's names derived from an e-mail address, the page's
 * start, which tells a return from checkout by its status, and the payment,
 * which saves the cards before the order is created.
 */
module TarotDescription {
  import opened Wrappers
  import opened Text
  import opened Records
  import opened BrowserState
  import opened PaymentService

  // ------------------------------------------------------ the description

  /** What the pieces are joined with: two spaces. */
  const Gap := "  "

  /**
   * The random index `Math.floor(Math.random() * length)` for the `i`-th
   * card, given as the `i`-th draw (a missing draw counts as 0); it is taken
   * modulo the number of descriptions, so it is always an index.
   */
  function Draw(picks: seq<nat>, i: nat): nat
  {
    if i < |picks| then picks[i] else 0
  }

  /** The first `map` for one card: its drawn description trimmed, or null when it has none. */
  function Piece(card: Card, draw: nat): Option<string>
  {
    if |card.descriptions| > 0 then Some(Trim(card.descriptions[draw % |card.descriptions|])) else None
  }

  /** The first `map` over the cards. */
  function Chosen(cards: seq<Card>, picks: seq<nat>): seq<Option<string>>
  {
    seq(|cards|, i requires 0 <= i < |cards| => Piece(cards[i], Draw(picks, i)))
  }

  /** A value the `filter` keeps: present and not the empty string. */
  predicate Usable(x: Option<string>)
  {
    x.Some? && x.value != ""
  }

  /** `.filter((description) => description)`. */
  function Kept(xs: seq<Option<string>>): (r: seq<string>)
    ensures |r| <= |xs|
    ensures forall k :: 0 <= k < |r| ==> r[k] != ""
  {
    if xs == [] then []
    else (if Usable(xs[0]) then [xs[0].value] else []) + Kept(xs[1..])
  }

  /** `description.endsWith('.') ? description : description + '.'`. */
  function Finished(s: string): string
  {
    if EndsWith(s, '.') then s else s + "."
  }

  /** The second `map`. */
  function Dotted(xs: seq<string>): seq<string>
  {
    seq(|xs|, k requires 0 <= k < |xs| => Finished(xs[k]))
  }

  /** `generateDescriptionText`'s value for the given cards and draws. */
  function Description(cards: seq<Card>, picks: seq<nat>): string
  {
    Join(Dotted(Kept(Chosen(cards, picks))), Gap)
  }

  /** The full stop is added only where there is none: the piece ends with exactly the one it had or got. */
  lemma FinishedEndsWithDot(s: string)
    ensures EndsWith(Finished(s), '.')
    ensures EndsWith(s, '.') ==> Finished(s) == s
    ensures !EndsWith(s, '.') ==> Finished(s) == s + "." && Finished(s)[..|s|] == s
    ensures Finished(Finished(s)) == Finished(s)
  {
  }

  /** The filter keeps exactly the present, non-empty values, in order. */
  lemma {:induction false} KeptAppend(xs: seq<Option<string>>, ys: seq<Option<string>>)
    ensures Kept(xs + ys) == Kept(xs) + Kept(ys)
    decreases |xs|
  {
    if xs != [] {
      var head := if Usable(xs[0]) then [xs[0].value] else [];
      assert (xs + ys)[0] == xs[0];
      assert (xs + ys)[1..] == xs[1..] + ys;
      assert Kept(xs + ys) == head + Kept(xs[1..] + ys);
      assert Kept(xs) == head + Kept(xs[1..]);
      KeptAppend(xs[1..], ys);
      assert head + (Kept(xs[1..]) + Kept(ys)) == (head + Kept(xs[1..])) + Kept(ys);
    } else {
      assert xs + ys == ys;
    }
  }

  /** Nothing is kept exactly when no value is usable. */
  lemma {:induction false} KeptEmpty(xs: seq<Option<string>>)
    ensures Kept(xs) == [] <==> forall i :: 0 <= i < |xs| ==> !Usable(xs[i])
    decreases |xs|
  {
    if xs != [] {
      KeptEmpty(xs[1..]);
      assert forall i :: 1 <= i < |xs| ==> xs[i] == xs[1..][i - 1];
    }
  }

  /** `parts.join(sep)` gains one separator and the new part when a part is added. */
  lemma {:induction false} JoinAppend(parts: seq<string>, p: string, sep: string)
    ensures Join(parts + [p], sep) == if parts == [] then p else Join(parts, sep) + sep + p
    decreases |parts|
  {
    if |parts| == 1 {
      assert (parts + [p])[1..] == [p];
    } else if |parts| > 1 {
      assert (parts + [p])[1..] == parts[1..] + [p];
      JoinAppend(parts[1..], p, sep);
    }
  }

  /** Joined non-empty parts are empty only when there are none. */
  lemma JoinEmpty(parts: seq<string>, sep: string)
    requires forall k :: 0 <= k < |parts| ==> parts[k] != ""
    ensures Join(parts, sep) == "" <==> parts == []
  {
    if parts != [] {
      assert parts[0] != "";
    }
  }

  /**
   * One card more: a card with no descriptions, or whose drawn description is
   * blank, adds nothing; any other adds its trimmed description, with a full
   * stop, after two spaces when text came before it.
   */
  lemma DescriptionStep(cards: seq<Card>, picks: seq<nat>, c: Card, p: nat)
    requires |picks| == |cards|
    ensures |c.descriptions| == 0 ==> Description(cards + [c], picks + [p]) == Description(cards, picks)
    ensures |c.descriptions| > 0 ==>
      var d := c.descriptions[p % |c.descriptions|];
      && (IsBlank(d) ==> Description(cards + [c], picks + [p]) == Description(cards, picks))
      && (!IsBlank(d) ==>
            Description(cards + [c], picks + [p])
            == (if Description(cards, picks) == "" then Finished(Trim(d))
                else Description(cards, picks) + Gap + Finished(Trim(d))))
  {
    var xs := Chosen(cards, picks);
    assert Chosen(cards + [c], picks + [p]) == xs + [Piece(c, p)] by {
      assert forall i :: 0 <= i < |cards| ==> Draw(picks + [p], i) == Draw(picks, i) && (cards + [c])[i] == cards[i];
      assert Draw(picks + [p], |cards|) == p;
    }
    KeptAppend(xs, [Piece(c, p)]);
    var kept := Kept(xs);
    var ds := Dotted(kept);
    forall k | 0 <= k < |ds| ensures ds[k] != "" {
      FinishedEndsWithDot(kept[k]);
    }
    JoinEmpty(ds, Gap);
    if |c.descriptions| > 0 {
      var d := c.descriptions[p % |c.descriptions|];
      TrimEmptyIffBlank(d);
      if !IsBlank(d) {
        assert Kept([Piece(c, p)]) == [Trim(d)];
        assert Dotted(kept + [Trim(d)]) == ds + [Finished(Trim(d))];
        JoinAppend(ds, Finished(Trim(d)), Gap);
      } else {
        assert Kept([Piece(c, p)]) == [];
        assert kept + [] == kept;
      }
    } else {
      assert Kept([Piece(c, p)]) == [];
      assert kept + [] == kept;
    }
  }

  /**
   * The description is empty exactly when no card gives a non-blank
   * description; otherwise it ends with a full stop.
   */
  lemma DescriptionShape(cards: seq<Card>, picks: seq<nat>)
    ensures Description(cards, picks) == "" <==> forall i :: 0 <= i < |cards| ==> !Usable(Chosen(cards, picks)[i])
    ensures Description(cards, picks) != "" ==> EndsWith(Description(cards, picks), '.')
  {
    var kept := Kept(Chosen(cards, picks));
    var ds := Dotted(kept);
    KeptEmpty(Chosen(cards, picks));
    forall k | 0 <= k < |ds| ensures ds[k] != "" {
      FinishedEndsWithDot(kept[k]);
    }
    JoinEmpty(ds, Gap);
    if ds != [] {
      var n := |ds| - 1;
      assert ds == ds[..n] + [ds[n]];
      JoinAppend(ds[..n], ds[n], Gap);
      FinishedEndsWithDot(kept[n]);
      var j := Join(ds, Gap);
      assert j[|j| - 1] == ds[n][|ds[n]| - 1];
    }
  }

  // ---------------------------------------------------- card positions

  /** `getCardPosition(index)`: `['Pasado', 'Presente', 'Futuro'][index] || ''`. */
  function CardPosition(index: int): string
  {
    if index == 0 then "Pasado" else if index == 1 then "Presente" else if index == 2 then "Futuro" else ""
  }

  /** The index a position name stands for. */
  function PositionIndex(name: string): Option<nat>
  {
    if name == "Pasado" then Some(0) else if name == "Presente" then Some(1) else if name == "Futuro" then Some(2) else None
  }

  /**
   * The first three indices have a name each, read back to the index, and
   * every other index has the empty name; every name is the position of its index.
   */
  lemma PositionRoundTrip(index: int, name: string)
    ensures CardPosition(index) != "" <==> 0 <= index < 3
    ensures 0 <= index < 3 ==> PositionIndex(CardPosition(index)) == Some(index)
    ensures PositionIndex(name).Some? ==> CardPosition(PositionIndex(name).value) == name
  {
  }

  // ------------------------------------------------- names from e-mail

  /** The class `[._-]` the part before the `@` is split on. */
  const NameSeps: set<char> := {'.', '_', '-'}

  const DefaultEmail := "usuario@ecosoraculo.com"

  /** `userData?.email || 'usuario@ecosoraculo.com'`, for what `sessionStorage` holds under `userData`. */
  function BuyerEmail(user: Parsed<UserData>): (email: string)
    ensures email != ""
    ensures user.Parsed? && user.value.email != "" ==> email == user.value.email
  {
    if user.Parsed? then OrElse(user.value.email, DefaultEmail) else DefaultEmail
  }

  /** `email.split('@')[0].split(/[._-]/)`. */
  function NameParts(email: string): (parts: seq<string>)
    ensures |parts| >= 1
  {
    SplitOn(SplitOn(email, {'@'})[0], NameSeps)
  }

  /** `nameParts[0] || 'Usuario'`. */
  function FirstName(email: string): string
  {
    OrElse(NameParts(email)[0], "Usuario")
  }

  /** `nameParts.length > 1 ? nameParts[nameParts.length - 1] : 'Ecos'`. */
  function LastName(email: string): string
  {
    var parts := NameParts(email);
    if |parts| > 1 then parts[|parts| - 1] else "Ecos"
  }

  /** A local part with no `@` and no separator is the first name; the last name is then `Ecos`. */
  lemma NamesOfPlainAddress(local: string, domain: string)
    requires FreeOf(local, NameSeps + {'@'})
    ensures FirstName(local + "@" + domain) == OrElse(local, "Usuario")
    ensures LastName(local + "@" + domain) == "Ecos"
  {
    assert FreeOf(local, {'@'}) && FreeOf(local, NameSeps);
    SplitOnAfterFree(local, '@', domain, {'@'});
    assert local + "@" + domain == local + ['@'] + domain;
    SplitOnFree(local, NameSeps);
  }

  /**
   * A local part of two pieces around one separator gives the first piece
   * (or `Usuario` when it is empty) and the second, even an empty second
   * piece: `juan.@x` buys with an empty last name, not `Ecos`.
   */
  lemma NamesOfTwoPieceAddress(first: string, sep: char, last: string, domain: string)
    requires FreeOf(first, NameSeps + {'@'}) && FreeOf(last, NameSeps + {'@'}) && sep in NameSeps
    ensures FirstName(first + [sep] + last + "@" + domain) == OrElse(first, "Usuario")
    ensures LastName(first + [sep] + last + "@" + domain) == last
  {
    var local := first + [sep] + last;
    assert FreeOf(local, {'@'}) by {
      forall i | 0 <= i < |local| ensures local[i] != '@' {
        if i < |first| {
          assert local[i] == first[i];
        } else if i > |first| {
          assert local[i] == last[i - |first| - 1];
        }
      }
    }
    SplitOnAfterFree(local, '@', domain, {'@'});
    assert local + "@" + domain == local + ['@'] + domain;
    assert FreeOf(first, NameSeps) && FreeOf(last, NameSeps);
    SplitOnAfterFree(first, sep, last, NameSeps);
    SplitOnFree(last, NameSeps);
  }

  /** With no stored buyer, the order goes out under the default address as `Usuario Ecos`, the order defaults. */
  lemma DefaultBuyerNames()
    ensures BuyerEmail(Absent) == DefaultEmail == DefaultOrder.email
    ensures Capitalize(FirstName(DefaultEmail)) == DefaultOrder.firstName
    ensures Capitalize(LastName(DefaultEmail)) == DefaultOrder.lastName
  {
    DefaultAddressNames();
    CapitalizedDefaults();
  }

  /** The two names, with their first letters upper-cased. */
  lemma CapitalizedDefaults()
    ensures Capitalize("usuario") == "Usuario" && Capitalize("Ecos") == "Ecos"
  {
    assert ToUpper('u') == 'U' && ToUpper('E') == 'E';
    assert "usuario"[1..] == "suario" && "Ecos"[1..] == "cos";
  }

  /** The names the default address splits into. */
  lemma DefaultAddressNames()
    ensures FirstName(DefaultEmail) == "usuario" && LastName(DefaultEmail) == "Ecos"
  {
    var local, domain := "usuario", "ecosoraculo.com";
    DefaultLocalPlain();
    assert DefaultEmail == local + "@" + domain;
    NamesOfPlainAddress(local, domain);
  }

  /** The default address's local part is plain lower-case letters. */
  lemma DefaultLocalPlain()
    ensures FreeOf("usuario", NameSeps + {'@'})
  {
    var local := "usuario";
    forall i | 0 <= i < |local| ensures local[i] !in NameSeps + {'@'} {
      assert 'a' <= local[i] <= 'z';
    }
  }

  /** Upper-casing a first letter never makes a separator. */
  lemma CapitalizeFreeOf(s: string)
    requires FreeOf(s, NameSeps)
    ensures FreeOf(Capitalize(s), NameSeps)
  {
    if s != [] {
      assert ToUpper(s[0]) !in NameSeps;
      forall i | 0 <= i < |s| ensures Capitalize(s)[i] !in NameSeps {
        if i > 0 {
          assert Capitalize(s)[i] == s[i];
        }
      }
    }
  }

  /** Whatever the address, the first name is never empty, and neither name holds a separator. */
  lemma NamesHaveNoSeparators(email: string)
    ensures FirstName(email) != ""
    ensures FreeOf(Capitalize(FirstName(email)), NameSeps) && FreeOf(Capitalize(LastName(email)), NameSeps)
  {
    var parts := NameParts(email);
    SplitOnProperties(SplitOn(email, {'@'})[0], NameSeps);
    assert FreeOf(parts[0], NameSeps);
    assert FreeOf(parts[|parts| - 1], NameSeps);
    assert FreeOf("Usuario", NameSeps) && FreeOf("Ecos", NameSeps);
    CapitalizeFreeOf(FirstName(email));
    CapitalizeFreeOf(LastName(email));
  }

  // --------------------------------------------------------- the order

  const OrderDescription := "Lectura personalizada de cartas del tarot con interpretación detallada basada en tu consulta"

  /** The argument of `createOrder` in `makePayment`, for the buyer's address. */
  function TarotOrder(email: string): OrderInput
  {
    OrderInput(Some(15000), Some("Lectura de cartas tarot"), Some("1"),
               Some(Capitalize(FirstName(email))), Some(Capitalize(LastName(email))), Some(email),
               Some("services"), Some(OrderDescription))
  }

  /** The body posted supplies every field itself: no default reaches the back end but for the names the address gives. */
  lemma TarotOrderOverridesDefaults(email: string)
    ensures var o := WithDefaults(TarotOrder(email));
      && o.amount == 15000 && o.serviceName == "Lectura de cartas tarot" && o.serviceId == "1"
      && o.email == email && o.categoryId == "services" && o.description == OrderDescription
      && o.firstName == Capitalize(FirstName(email)) && o.lastName == Capitalize(LastName(email))
      && o.serviceName != DefaultOrder.serviceName
  {
    assert "Lectura de cartas tarot"[0] != DefaultOrder.serviceName[0];
  }

  // ------------------------------------------------------------ the page

  /** `router.navigate(['/welcome'], { queryParams: { error: 'payment_failed' } })`. */
  const FailedRoute := Url("/welcome", map["error" := "payment_failed"])
  /** `router.navigate(['/welcome'])`. */
  const WelcomeRoute := Url("/welcome", map[])

  /** The page's fields, the card service's selection and the browser state, as one value. */
  datatype ReadingView = ReadingView(
    selectedCards: seq<Card>, descriptionsText: string, isPaid: bool, isLoading: bool,
    serviceCards: seq<Card>, routed: Option<Url>, ordersSent: seq<OrderData>,
    session: Storage, local: Storage, location: Url, navigation: Option<string>)

  /** `savedData.selectedCards` when it is a non-empty list. */
  function SavedCards(snapshot: PaymentSnapshot): (r: Option<seq<Card>>)
    ensures r.Some? ==> |r.value| > 0
  {
    if snapshot.CardSnapshot? && |snapshot.cards| > 0 then Some(snapshot.cards) else None
  }

  /** The saved cards taken back, also into the card service, and the saved buyer put back in `sessionStorage`. */
  function Restored(v: ReadingView, snapshot: PaymentSnapshot): ReadingView
  {
    var cards := SavedCards(snapshot);
    var withCards := if cards.Some? then v.(selectedCards := cards.value, serviceCards := cards.value) else v;
    var user := snapshot.SavedUser();
    if user.Some? then withCards.(session := withCards.session["userData" := Json(UserDoc(user.value))])
    else withCards
  }

  /** The end of `ngOnInit`: with no cards, back to the welcome page; otherwise the description. */
  function Described(v: ReadingView, picks: seq<nat>): ReadingView
  {
    if v.selectedCards == [] then v.(routed := Some(WelcomeRoute))
    else v.(descriptionsText := Description(v.selectedCards, picks))
  }

  /** The approved branch: paid, the snapshot restored, the payment data and the address cleaned. */
  function ApprovedReturn(v: ReadingView): ReadingView
  {
    var saved := GetPaymentData(v.local);
    var restored := if saved.Some? then Restored(v.(isPaid := true), saved.value.snapshot) else v.(isPaid := true);
    restored.(local := ClearedPaymentData(restored.local), location := CleanedUrl(restored.location))
  }

  /** `ngOnInit`, up to the timer that ends the loading. */
  function Initialised(v: ReadingView, picks: seq<nat>): ReadingView
  {
    var status := CheckPaymentStatus(v.location.query).status;
    var loading := v.(isLoading := true);
    if status == Some(Approved) then Described(ApprovedReturn(loading), picks)
    else if status == Some(Rejected) || status == Some(Status.Failure) then loading.(routed := Some(FailedRoute))
    else if status == Some(Pending) then Described(loading.(isPaid := false), picks)
    else Described(loading.(selectedCards := v.serviceCards), picks)
  }

  /**
   * An approved return with saved cards: paid, the cards back on the page and
   * in the card service, a fresh description of them, the payment data gone
   * and the address cleaned. The saved description text is not used.
   */
  lemma ApprovedReturnRestoresCards(v: ReadingView, picks: seq<nat>, cards: seq<Card>, text: string, savedAt: string)
    requires CheckPaymentStatus(v.location.query).status == Some(Approved)
    requires GetPaymentData(v.local) == Some(PaymentRecord(CardSnapshot(cards, text), savedAt)) && cards != []
    ensures var r := Initialised(v, picks);
      && r.isPaid && r.isLoading && r.selectedCards == cards && r.serviceCards == cards
      && r.descriptionsText == Description(cards, picks) && r.routed == v.routed
      && r.session == v.session && r.local == ClearedPaymentData(v.local) && GetPaymentData(r.local) == None
      && r.location == CleanedUrl(v.location) && !HasPaymentParams(r.location.query)
  {
    SaveThenGet(v.local, CardSnapshot(cards, text), savedAt);
    CleanedUrlHasNoPaymentParams(v.location);
  }

  /**
   * An approved return without saved cards (nothing saved, or another
   * page's snapshot) on a page with none: paid, the payment data cleared,
   * and sent back to the welcome page all the same.
   */
  lemma ApprovedWithoutCardsRoutesHome(v: ReadingView, picks: seq<nat>)
    requires CheckPaymentStatus(v.location.query).status == Some(Approved) && v.selectedCards == []
    requires GetPaymentData(v.local).None? || SavedCards(GetPaymentData(v.local).value.snapshot).None?
    ensures var r := Initialised(v, picks);
      && r.isPaid && r.routed == Some(WelcomeRoute) && r.selectedCards == []
      && r.local == ClearedPaymentData(v.local) && r.descriptionsText == v.descriptionsText
  {
  }

  /**
   * A rejected return (the status reader folds `failure` into it) goes to
   * the welcome page with the error and changes nothing else: not even the
   * saved payment data is cleared.
   */
  lemma RejectedReturnRoutesAway(v: ReadingView, picks: seq<nat>)
    requires CheckPaymentStatus(v.location.query).status == Some(Rejected)
    ensures Initialised(v, picks) == v.(isLoading := true, routed := Some(FailedRoute))
    ensures Initialised(v, picks).local == v.local && Initialised(v, picks).isPaid == v.isPaid
  {
  }

  /**
   * A pending return leaves the cards as they were, which on a newly built
   * page is none: the visitor is sent to the welcome page, unpaid.
   */
  lemma PendingReturnRoutesHome(v: ReadingView, picks: seq<nat>)
    requires CheckPaymentStatus(v.location.query).status == Some(Pending) && v.selectedCards == []
    ensures var r := Initialised(v, picks);
      && r.routed == Some(WelcomeRoute) && !r.isPaid && r.local == v.local && r.location == v.location
  {
  }

  /** An ordinary visit shows the card service's cards, and goes to the welcome page when there are none. */
  lemma OrdinaryVisitShowsServiceCards(v: ReadingView, picks: seq<nat>)
    requires CheckPaymentStatus(v.location.query).status.None?
    ensures var r := Initialised(v, picks);
      && r.selectedCards == v.serviceCards && r.isPaid == v.isPaid && r.local == v.local
      && (v.serviceCards == [] ==> r.routed == Some(WelcomeRoute) && r.descriptionsText == v.descriptionsText)
      && (v.serviceCards != [] ==> r.routed == v.routed && r.descriptionsText == Description(v.serviceCards, picks))
  {
  }

  /** `makePayment`: the snapshot saved first, then the order posted, then the redirect when an address came back. */
  function PaymentMade(v: ReadingView, order: Option<OrderReply>, savedAt: string): ReadingView
  {
    var email := BuyerEmail(ReadUser(v.session, "userData"));
    var posted := v.(local := SavedPaymentData(v.local, CardSnapshot(v.selectedCards, v.descriptionsText), savedAt),
                     ordersSent := v.ordersSent + [WithDefaults(TarotOrder(email))]);
    if order.Some? && CheckoutUrl(order.value) != "" then posted.(navigation := Some(CheckoutUrl(order.value)))
    else posted
  }

  /**
   * Whatever the order's fate, the cards and the description are saved
   * before it is created and read back as they were; the order carries the
   * stored buyer's address and the names taken from it.
   */
  lemma PaymentSavesCardsFirst(v: ReadingView, order: Option<OrderReply>, savedAt: string)
    ensures var r := PaymentMade(v, order, savedAt);
      && GetPaymentData(r.local) == Some(PaymentRecord(CardSnapshot(v.selectedCards, v.descriptionsText), savedAt))
      && r.selectedCards == v.selectedCards && r.session == v.session && r.isPaid == v.isPaid
      && |r.ordersSent| == |v.ordersSent| + 1
      && r.ordersSent[|v.ordersSent|].email == BuyerEmail(ReadUser(v.session, "userData"))
      && (order.None? ==> r.navigation == v.navigation)
  {
    SaveThenGet(v.local, CardSnapshot(v.selectedCards, v.descriptionsText), savedAt);
  }

  /**
   * The round trip through checkout: the cards on the page when the payment
   * was made are the cards on the page after an approved return, now paid,
   * with the payment data gone.
   */
  lemma CheckoutRestoresCards(v: ReadingView, order: Option<OrderReply>, savedAt: string, back: Url, picks: seq<nat>)
    requires v.selectedCards != []
    requires CheckPaymentStatus(back.query).status == Some(Approved)
    ensures var r := Initialised(PaymentMade(v, order, savedAt).(location := back), picks);
      && r.isPaid && r.selectedCards == v.selectedCards && r.serviceCards == v.selectedCards
      && r.descriptionsText == Description(v.selectedCards, picks)
      && GetPaymentData(r.local) == None
  {
    var m := PaymentMade(v, order, savedAt).(location := back);
    PaymentSavesCardsFirst(v, order, savedAt);
    ApprovedReturnRestoresCards(m, picks, v.selectedCards, v.descriptionsText, savedAt);
  }

  /** The page, the card service's selection and the browser it runs in. */
  class Reading {
    var selectedCards: seq<Card>
    var descriptionsText: string
    var isPaid: bool
    var isLoading: bool
    /** What `cardService.getSelectedCards` returns and `setSelectedCards` replaces. */
    var serviceCards: seq<Card>
    /** The last `router.navigate` target, if any. */
    var routed: Option<Url>
    /** The bodies posted by `createOrder`, oldest first. */
    var ordersSent: seq<OrderData>
    const browser: Browser

    /** The fields and the browser state, as one value. */
    function View(): ReadingView
      reads this, browser
    {
      ReadingView(selectedCards, descriptionsText, isPaid, isLoading, serviceCards, routed, ordersSent,
                  browser.session, browser.local, browser.location, browser.navigation)
    }

    constructor(browser: Browser, serviceCards: seq<Card>)
      ensures this.browser == browser
      ensures View() == ReadingView([], "", false, false, serviceCards, None, [],
                                    browser.session, browser.local, browser.location, browser.navigation)
    {
      this.browser := browser;
      this.serviceCards := serviceCards;
      selectedCards, descriptionsText, isPaid, isLoading := [], "", false, false;
      routed, ordersSent := None, [];
    }

    /** `generateDescriptionText`, given the random draws. */
    method GenerateDescriptionText(picks: seq<nat>)
      modifies this
      ensures View() == old(View()).(descriptionsText := Description(old(selectedCards), picks))
    {
      descriptionsText := Description(selectedCards, picks);
    }

    /** `ngOnInit`, given the random draws of the description. */
    method Init(picks: seq<nat>)
      modifies this, browser
      ensures View() == Initialised(old(View()), picks)
    {
      isLoading := true;
      var status := CheckPaymentStatus(browser.location.query).status;
      if status == Some(Approved) {
        isPaid := true;
        var saved := GetPaymentData(browser.local);
        if saved.Some? {
          var cards := SavedCards(saved.value.snapshot);
          if cards.Some? {
            selectedCards := cards.value;
            serviceCards := cards.value;
          }
          var user := saved.value.snapshot.SavedUser();
          if user.Some? {
            browser.SetSession("userData", Json(UserDoc(user.value)));
          }
        }
        ClearPaymentData(browser);
        CleanPaymentParamsFromUrl(browser);
      } else if status == Some(Rejected) || status == Some(Status.Failure) {
        routed := Some(FailedRoute);
        return;
      } else if status == Some(Pending) {
        isPaid := false;
      } else {
        selectedCards := serviceCards;
      }
      if selectedCards == [] {
        routed := Some(WelcomeRoute);
        return;
      }
      GenerateDescriptionText(picks);
    }

    /** The timer `ngOnInit` sets once the description is generated. */
    method LoadingDone()
      modifies this
      ensures View() == old(View()).(isLoading := false)
    {
      isLoading := false;
    }

    /**
     * `makePayment`, given what `createOrder` answers (`None` when it
     * throws) and the snapshot's time stamp. A failure ends in an alert,
     * which changes nothing here.
     */
    method MakePayment(order: Option<OrderReply>, savedAt: string)
      modifies this, browser
      ensures View() == PaymentMade(old(View()), order, savedAt)
    {
      var email := BuyerEmail(ReadUser(browser.session, "userData"));
      SavePaymentData(browser, CardSnapshot(selectedCards, descriptionsText), savedAt);
      ordersSent := ordersSent + [WithDefaults(TarotOrder(email))];
      if order.Some? {
        var redirected := RedirectToPayment(browser, CheckoutUrl(order.value));
      }
    }
  }
}
