/**
 * What the paywall promises about page loads and the actions around
 * checkout: an approved return pays, restores and replays; a return that is
 * not approved keeps the paid state the flags give; a reset leaves one
 * welcome; a prize adds credits or premium access. The pending branch as
 * most widgets write it is shown to forget the conversation, and the
 * loading-first order to keep it.
 */
module PaywallReturns {
  import opened Wrappers
  import opened Text
  import opened Records
  import opened PaymentService
  import opened Paywall
  import opened PaywallLaws

  // ------------------------------------------------------- step by step

  /** An approved return marks the user paid by both flags and lifts the block. */
  lemma MarkedPaidFacts(w: Widget, v: ChatView)
    requires WellKeyed(w) && ApartFromShared(w)
    ensures var r := MarkedPaid(w, v);
      && r.paid && r.blocked == None && w.keys.blocked !in r.session
      && IsTrueItem(r.session, w.keys.paidFlag) && IsServicePaid(r.session, w.paidServiceId)
      && r.messages == v.messages && r.count == v.count && r.local == v.local
      && r.location == v.location && r.userData == v.userData
  {
    var k := w.keys;
    var s1 := v.session[k.paidFlag := Text("true")];
    var s2 := MarkedServicePaid(s1, w.paidServiceId, true);
    RemoveElsewhere(s2, {k.blocked}, k.paidFlag);
    RemoveElsewhere(s2, {k.blocked}, ServicePaidKey(w.paidServiceId));
    UntouchedReads(s2 - {k.blocked}, s2, k.paidFlag);
    UntouchedReads(s2 - {k.blocked}, s2, ServicePaidKey(w.paidServiceId));
  }

  /** Marking the user paid touches only the two flags and the block. */
  lemma MarkedPaidTouchesOnly(w: Widget, v: ChatView, key: string)
    requires key != w.keys.paidFlag && key != ServicePaidKey(w.paidServiceId) && key != w.keys.blocked
    ensures Untouched(MarkedPaid(w, v).session, v.session, key)
  {
    var k := w.keys;
    var s1 := v.session[k.paidFlag := Text("true")];
    var s2 := MarkedServicePaid(s1, w.paidServiceId, true);
    WriteElsewhere(v.session, k.paidFlag, Text("true"), key);
    WriteElsewhere(s1, ServicePaidKey(w.paidServiceId), Text("true"), key);
    RemoveElsewhere(s2, {k.blocked}, key);
  }

  /** Restoring from the snapshot touches only the shared buyer entry. */
  lemma RestoredTouchesOnly(w: Widget, v: ChatView, key: string)
    requires key != UserDataKey
    ensures Untouched(Restored(w, v).session, v.session, key)
  {
    match GetPaymentData(v.local)
    case None =>
    case Some(record) =>
      match record.snapshot.SavedUser()
      case None =>
      case Some(u) => WriteElsewhere(v.session, UserDataKey, Json(UserDoc(u)), key);
  }

  /** Without a snapshot there is nothing to restore. */
  lemma NothingRestored(w: Widget, v: ChatView)
    requires GetPaymentData(v.local).None?
    ensures var r := Restored(w, v);
      r.messages == v.messages && r.count == v.count && r.userData == v.userData
  {
  }

  /**
   * With a snapshot, the conversation comes back when the snapshot holds a
   * non-empty one under the widget's field, the counter and the buyer when
   * it holds them; nothing else but the buyer entry changes.
   */
  lemma SnapshotRestored(w: Widget, v: ChatView, record: PaymentRecord)
    requires GetPaymentData(v.local) == Some(record)
    ensures var r := Restored(w, v);
      && r.messages == (if record.snapshot.HistoryUnder(w.historyField).Some?
                        then record.snapshot.HistoryUnder(w.historyField).value else v.messages)
      && r.count == (if record.snapshot.SavedCount().Some? then record.snapshot.SavedCount().value else v.count)
      && r.userData == (if record.snapshot.SavedUser().Some? then record.snapshot.SavedUser() else v.userData)
      && r.paid == v.paid && r.blocked == v.blocked && r.local == v.local && r.location == v.location
  {
  }

  /** The confirmation is shown and the conversation saved with it; no other entry changes. */
  lemma ConfirmedFacts(w: Widget, v: ChatView, key: string)
    requires key != w.keys.messages
    ensures var r := Confirmed(w, v);
      && r.messages == v.messages + [Said(w.confirmation)]
      && ReadMessages(r.session, w.keys.messages) == Parsed(r.messages)
      && Untouched(r.session, v.session, key)
      && r.local == v.local && Kept(r, v)
  {
    var v1 := Posted(w, v, Said(w.confirmation));
    PostedTouchesOnlyMessages(w, v, Said(w.confirmation), key);
    MessagesSavedTouchesOnly(w, v1, key);
  }

  /** Taking the pending message out touches no other entry, and leaves none behind. */
  lemma PendingTakenFacts(w: Widget, v: ChatView, key: string)
    requires key != w.keys.pending
    ensures var (r, replay) := PendingTaken(w, v);
      && Untouched(r.session, v.session, key) && !HasItem(r.session, w.keys.pending)
      && replay == (if HasItem(v.session, w.keys.pending) then RawItem(v.session, w.keys.pending) else None)
      && r.messages == v.messages && r.local == v.local && Kept(r, v)
  {
    if HasItem(v.session, w.keys.pending) {
      RemoveElsewhere(v.session, {w.keys.pending}, key);
    }
  }

  /**
   * The end of every approved branch: whatever was recovered, the snapshot
   * is cleared, the confirmation follows the conversation and is saved with
   * it, and the paid state, the block and the counter stay as they were.
   */
  lemma ClearedAndConfirmed(w: Widget, v: ChatView)
    requires WellKeyed(w)
    ensures var r := PendingTaken(w, Confirmed(w, PaymentCleared(v))).0;
      && r.paid == v.paid && r.blocked == v.blocked && r.count == v.count
      && r.messages == v.messages + [Said(w.confirmation)]
      && ReadMessages(r.session, w.keys.messages) == Parsed(r.messages)
      && GetPaymentData(r.local) == None
  {
    var v1 := PaymentCleared(v);
    var v2 := Confirmed(w, v1);
    ConfirmedFacts(w, v1, w.keys.pending);
    PendingTakenFacts(w, v2, w.keys.messages);
    UntouchedReads(PendingTaken(w, v2).0.session, v2.session, w.keys.messages);
  }

  // ---------------------------------------------------- approved return

  /** A page load with an approved payment in the address is the approved return. */
  lemma ApprovedLoad(w: Widget, v: ChatView, greeting: string)
    requires ApprovedQuery(v.location.query)
    ensures Initialised(w, v, greeting) == ApprovedReturn(w, Opened(w, v))
    ensures InitialisedLoadingFirst(w, v, greeting) == ApprovedReturn(w, Opened(w, v))
  {
  }

  /**
   * An approved return leaves the user paid by the widget's flag and by the
   * per-service flag, with no block; the snapshot is cleared and the payment
   * parameters are gone from the address.
   */
  lemma ApprovedReturnPays(w: Widget, v: ChatView)
    requires WellKeyed(w) && ApartFromShared(w)
    ensures var r := ApprovedReturn(w, v).0;
      && r.paid && r.blocked == None && w.keys.blocked !in r.session
      && IsTrueItem(r.session, w.keys.paidFlag) && IsServicePaid(r.session, w.paidServiceId)
      && GetPaymentData(r.local).None? && !HasPaymentParams(r.location.query)
  {
    var k := w.keys;
    var flag := ServicePaidKey(w.paidServiceId);
    var v1 := MarkedPaid(w, v);
    var v2 := Restored(w, v1);
    var v3 := PaymentCleared(v2);
    var v4 := Confirmed(w, v3);
    var r := ApprovedReturn(w, v).0;
    MarkedPaidFacts(w, v);
    UserDataIsNoServiceFlag(w.paidServiceId);
    RestoredTouchesOnly(w, v1, k.paidFlag);
    RestoredTouchesOnly(w, v1, flag);
    RestoredTouchesOnly(w, v1, k.blocked);
    ConfirmedFacts(w, v3, k.paidFlag);
    ConfirmedFacts(w, v3, flag);
    ConfirmedFacts(w, v3, k.blocked);
    PendingTakenFacts(w, v4, k.paidFlag);
    PendingTakenFacts(w, v4, flag);
    PendingTakenFacts(w, v4, k.blocked);
    UntouchedReads(r.session, v1.session, k.paidFlag);
    UntouchedReads(r.session, v1.session, flag);
    CleanedUrlHasNoPaymentParams(v2.location);
  }

  /**
   * An approved return shows the conversation the snapshot holds (or the one
   * on screen when the snapshot holds none) followed by the confirmation,
   * takes back the counter and the buyer, and saves the conversation.
   */
  lemma ApprovedReturnRestores(w: Widget, v: ChatView, record: PaymentRecord)
    requires WellKeyed(w) && ApartFromShared(w) && GetPaymentData(v.local) == Some(record)
    ensures var r := ApprovedReturn(w, v).0;
      var saved := record.snapshot;
      && r.messages == (if saved.HistoryUnder(w.historyField).Some?
                        then saved.HistoryUnder(w.historyField).value else v.messages) + [Said(w.confirmation)]
      && r.count == (if saved.SavedCount().Some? then saved.SavedCount().value else v.count)
      && r.userData == (if saved.SavedUser().Some? then saved.SavedUser() else v.userData)
      && ReadMessages(r.session, w.keys.messages) == Parsed(r.messages)
  {
    var v1 := MarkedPaid(w, v);
    var v2 := Restored(w, v1);
    var v3 := PaymentCleared(v2);
    var v4 := Confirmed(w, v3);
    var r := ApprovedReturn(w, v).0;
    MarkedPaidFacts(w, v);
    SnapshotRestored(w, v1, record);
    ConfirmedFacts(w, v3, w.keys.pending);
    PendingTakenFacts(w, v4, w.keys.messages);
    UntouchedReads(r.session, v4.session, w.keys.messages);
  }

  /**
   * When the data form saved its own snapshot over the widget's (the buyer
   * and the service, no conversation), an approved return shows only what
   * was on screen followed by the confirmation, and keeps the counter.
   */
  lemma BuyerSnapshotRestoresNoConversation(w: Widget, v: ChatView, buyer: UserData, service: ServiceConfig, savedAt: string)
    requires WellKeyed(w) && ApartFromShared(w)
    requires GetPaymentData(v.local) == Some(PaymentRecord(BuyerSnapshot(buyer, service), savedAt))
    ensures var r := ApprovedReturn(w, v).0;
      && r.messages == v.messages + [Said(w.confirmation)] && r.count == v.count && r.userData == Some(buyer)
  {
    ApprovedReturnRestores(w, v, PaymentRecord(BuyerSnapshot(buyer, service), savedAt));
  }

  /**
   * An approved return hands back the message held for checkout, if there is
   * one, and leaves none behind.
   */
  lemma ApprovedReturnReplays(w: Widget, v: ChatView)
    requires WellKeyed(w) && ApartFromShared(w)
    ensures var (r, replay) := ApprovedReturn(w, v);
      && !HasItem(r.session, w.keys.pending)
      && replay == (if HasItem(v.session, w.keys.pending) then RawItem(v.session, w.keys.pending) else None)
  {
    var k := w.keys;
    var v1 := MarkedPaid(w, v);
    var v2 := Restored(w, v1);
    var v3 := PaymentCleared(v2);
    var v4 := Confirmed(w, v3);
    MarkedPaidTouchesOnly(w, v, k.pending);
    RestoredTouchesOnly(w, v1, k.pending);
    ConfirmedFacts(w, v3, k.pending);
    PendingTakenFacts(w, v4, k.messages);
    UntouchedReads(v4.session, v.session, k.pending);
  }

  // ------------------------------------------------ other page loads

  /**
   * A page load without an approved payment replays nothing, and the user
   * is paid exactly when the widget's flag or the per-service flag says so.
   */
  lemma InitialPaidState(w: Widget, v: ChatView, greeting: string)
    requires !ApprovedQuery(v.location.query)
    ensures var (r, replay) := Initialised(w, v, greeting);
      replay.None? && r.paid == (IsTrueItem(v.session, w.keys.paidFlag) || IsServicePaid(v.session, w.paidServiceId))
    ensures var (r, replay) := InitialisedLoadingFirst(w, v, greeting);
      replay.None? && r.paid == (IsTrueItem(v.session, w.keys.paidFlag) || IsServicePaid(v.session, w.paidServiceId))
  {
  }

  /** The settling steps end with no block set while the user is paid. */
  lemma SettledUnblocksPaid(w: Widget, v: ChatView, greeting: string)
    ensures var r := Settled(w, v, greeting);
      r.paid == v.paid && (r.paid ==> !IsSet(r.blocked))
  {
  }

  /** However a page loads, a paid user ends with no block set. */
  lemma InitialisedUnblocksPaid(w: Widget, v: ChatView, greeting: string)
    requires WellKeyed(w) && ApartFromShared(w)
    ensures var r := Initialised(w, v, greeting).0; r.paid ==> !IsSet(r.blocked)
    ensures var r := InitialisedLoadingFirst(w, v, greeting).0; r.paid ==> !IsSet(r.blocked)
  {
    var v1 := Opened(w, v);
    if ApprovedQuery(v1.location.query) {
      ApprovedReturnPays(w, v1);
    } else {
      SettledUnblocksPaid(w, Returned(w, v1), greeting);
      SettledUnblocksPaid(w, v1, greeting);
    }
  }

  /**
   * A plain page load with a stored conversation and an empty screen shows
   * the stored conversation, with the stored counter and the stored block
   * (lifted when the user is paid).
   */
  lemma PlainLoadRestores(w: Widget, v: ChatView, greeting: string, ms: seq<Message>)
    requires !HasPaymentParams(v.location.query) && v.messages == []
    requires ReadMessages(v.session, w.keys.messages) == Parsed(ms) && ms != []
    ensures var r := Initialised(w, v, greeting).0;
      var stored := BlockedRead(v.session, w.keys.blocked);
      && r.messages == ms && r.count == CountOf(RawItem(v.session, w.keys.count))
      && r.blocked == (if r.paid && IsSet(stored) then None else stored)
  {
    StatusNeedsParams(v.location.query);
  }

  // --------------------------------------------------------------- resets

  /**
   * A reset followed by the welcome leaves exactly the greeting, a zero
   * counter stored as such, no block, and none of the removed entries but
   * the ones the welcome writes again.
   */
  lemma ResetLeavesOneWelcome(w: Widget, v: ChatView, removed: set<string>, greeting: string)
    requires WellKeyed(w)
    ensures var r := Welcomed(w, Emptied(v, removed), greeting);
      && r.messages == [Said(greeting)] && r.count == 0 && r.blocked == None && r.paid == v.paid
      && CountOf(RawItem(r.session, w.keys.count)) == 0
      && (forall key :: key in removed && key != w.keys.count && key != w.keys.messages ==> key !in r.session)
      && (w.savesEveryPost ==> ReadMessages(r.session, w.keys.messages) == Parsed(r.messages))
  {
    var v0 := Emptied(v, removed);
    var v1 := CountSaved(w, v0.(count := 0));
    var r := Welcomed(w, v0, greeting);
    PostedTouchesOnlyMessages(w, v1, Said(greeting), w.keys.count);
    UntouchedReads(r.session, v1.session, w.keys.count);
    CountOfToString(0);
    forall key | key in removed && key != w.keys.count && key != w.keys.messages
      ensures key !in r.session
    {
      CountSavedTouchesOnly(w, v0.(count := 0), key);
      PostedTouchesOnlyMessages(w, v1, Said(greeting), key);
    }
  }

  // --------------------------------------------------------------- prizes

  /** The prize announcement is shown and saved; nothing else changes but the conversation entry. */
  lemma AnnouncedFacts(w: Widget, v: ChatView, announcement: string, key: string)
    requires key != w.keys.messages
    ensures var r := MessagesSaved(w, Posted(w, v, Said(announcement)));
      && r.messages == v.messages + [Said(announcement)] && Kept(r, v) && r.local == v.local
      && Untouched(r.session, v.session, key)
  {
    PostedTouchesOnlyMessages(w, v, Said(announcement), key);
    MessagesSavedTouchesOnly(w, Posted(w, v, Said(announcement)), key);
  }

  /** `CreditsAdded` on its own: the stored number grows by n, the block of an unpaid user goes. */
  lemma CreditsAddedFacts(w: Widget, v: ChatView, n: nat)
    requires WellKeyed(w) && w.keys.credits.Some?
    ensures var r := CreditsAdded(w, v, n);
      && Credits(w, r.session) == Credits(w, v.session) + n
      && r.messages == v.messages && r.count == v.count && r.paid == v.paid
      && (!r.paid ==> !IsSet(r.blocked))
  {
    CreditsAddedCount(w, v, n);
  }

  /** The counter `CreditsAdded` writes reads back as the old one plus `n`. */
  lemma CreditsAddedCount(w: Widget, v: ChatView, n: nat)
    requires WellKeyed(w) && w.keys.credits.Some?
    ensures Credits(w, CreditsAdded(w, v, n).session) == Credits(w, v.session) + n
  {
    var ck := w.keys.credits.value;
    var m := Credits(w, v.session) + n;
    var s1 := v.session[ck := Text(NatToString(m))];
    CounterReads(s1, ck, m);
    var r := CreditsAdded(w, v, n);
    if IsSet(v.blocked) && !v.paid {
      assert r.session == s1 - {w.keys.blocked};
      RemoveElsewhere(s1, {w.keys.blocked}, ck);
      UntouchedReads(s1 - {w.keys.blocked}, s1, ck);
    } else {
      assert r.session == s1;
    }
  }

  /** A counter written as its decimal text reads back as the number. */
  lemma CounterReads(s: Storage, key: string, m: nat)
    requires key in s && s[key] == Text(NatToString(m))
    ensures CountOf(RawItem(s, key)) == m
  {
    CountOfToString(m);
  }

  /**
   * Prize '1' adds three free consultations to those left, and lifts the
   * block of an unpaid user; the counter and the paid state stay.
   */
  lemma CreditPrize(w: Widget, v: ChatView, announcement: string)
    requires WellKeyed(w) && w.keys.credits.Some?
    ensures var r := PrizeWon(w, v, "1", announcement);
      && Credits(w, r.session) == Credits(w, v.session) + 3
      && r.messages == v.messages + [Said(announcement)]
      && r.count == v.count && r.paid == v.paid
      && (!r.paid ==> !IsSet(r.blocked))
  {
    var v1 := MessagesSaved(w, Posted(w, v, Said(announcement)));
    AnnouncedFacts(w, v, announcement, w.keys.credits.value);
    UntouchedReads(v1.session, v.session, w.keys.credits.value);
    CreditsAddedFacts(w, v1, 3);
  }

  /** The flags `PremiumMarked` writes, and the per-service flag left alone where it is not written. */
  lemma PremiumMarkedFlags(w: Widget, v: ChatView)
    requires WellKeyed(w) && ApartFromShared(w)
    ensures var r := PremiumMarked(w, v);
      && IsTrueItem(r.session, w.keys.paidFlag)
      && (w.prizeMarksService ==> IsServicePaid(r.session, w.paidServiceId))
      && (!w.prizeMarksService ==> Untouched(r.session, v.session, ServicePaidKey(w.paidServiceId)))
  {
    var k := w.keys;
    var flag := ServicePaidKey(w.paidServiceId);
    var s1 := v.session[k.paidFlag := Text("true")];
    var s2 := if w.prizeMarksService then MarkedServicePaid(s1, w.paidServiceId, true) else s1;
    var u1 := v.(paid := true, session := s2);
    if !w.prizeMarksService {
      WriteElsewhere(v.session, k.paidFlag, Text("true"), flag);
    }
    if IsSet(u1.blocked) {
      RemoveElsewhere(u1.session, {k.blocked}, k.paidFlag);
      RemoveElsewhere(u1.session, {k.blocked}, flag);
      UntouchedReads(PremiumMarked(w, v).session, u1.session, k.paidFlag);
      UntouchedReads(PremiumMarked(w, v).session, u1.session, flag);
    }
  }

  /** `PremiumGranted` on its own: the flags of `PremiumMarked`, and the premium notice shown and saved. */
  lemma PremiumGrantedFacts(w: Widget, v: ChatView)
    requires WellKeyed(w) && ApartFromShared(w)
    ensures var r := PremiumGranted(w, v);
      && ReadMessages(r.session, w.keys.messages) == Parsed(r.messages)
      && IsTrueItem(r.session, w.keys.paidFlag)
      && (w.prizeMarksService ==> IsServicePaid(r.session, w.paidServiceId))
      && (!w.prizeMarksService ==> Untouched(r.session, v.session, ServicePaidKey(w.paidServiceId)))
  {
    var u := PremiumMarked(w, v);
    var r := PremiumGranted(w, v);
    var flag := ServicePaidKey(w.paidServiceId);
    PremiumMarkedFlags(w, v);
    AnnouncedFacts(w, u, w.premiumNotice, w.keys.paidFlag);
    AnnouncedFacts(w, u, w.premiumNotice, flag);
    UntouchedReads(r.session, u.session, w.keys.paidFlag);
    UntouchedReads(r.session, u.session, flag);
  }

  /**
   * Prize '2' makes the user paid by the widget's flag (and by the
   * per-service flag where the widget writes it), lifts the block, and shows
   * and saves the announcement and the premium notice.
   */
  lemma PremiumPrize(w: Widget, v: ChatView, announcement: string)
    requires WellKeyed(w) && ApartFromShared(w)
    ensures var r := PrizeWon(w, v, "2", announcement);
      && r.paid && !IsSet(r.blocked) && r.count == v.count
      && r.messages == v.messages + [Said(announcement), Said(w.premiumNotice)]
      && ReadMessages(r.session, w.keys.messages) == Parsed(r.messages)
      && IsTrueItem(r.session, w.keys.paidFlag)
      && (w.prizeMarksService ==> IsServicePaid(r.session, w.paidServiceId))
      && (!w.prizeMarksService ==> IsServicePaid(r.session, w.paidServiceId) == IsServicePaid(v.session, w.paidServiceId))
  {
    var flag := ServicePaidKey(w.paidServiceId);
    var v1 := MessagesSaved(w, Posted(w, v, Said(announcement)));
    var r := PrizeWon(w, v, "2", announcement);
    assert r == PremiumGranted(w, v1);
    PremiumGrantedFacts(w, v1);
    if !w.prizeMarksService {
      AnnouncedFacts(w, v, announcement, flag);
      UntouchedReads(r.session, v1.session, flag);
      UntouchedReads(v1.session, v.session, flag);
    }
  }

  /** Any other prize is only announced. */
  lemma OtherPrize(w: Widget, v: ChatView, prizeId: string, announcement: string)
    requires WellKeyed(w) && prizeId != "1" && prizeId != "2"
    ensures var r := PrizeWon(w, v, prizeId, announcement);
      && r.messages == v.messages + [Said(announcement)] && r.paid == v.paid && r.blocked == v.blocked
      && r.count == v.count && Credits(w, r.session) == Credits(w, v.session)
  {
    if w.keys.credits.Some? {
      AnnouncedFacts(w, v, announcement, w.keys.credits.value);
      UntouchedReads(PrizeWon(w, v, prizeId, announcement).session, v.session, w.keys.credits.value);
    }
  }

  // ------------------------------------------- returning while pending

  /**
   * The pending branch as most widgets write it: on a fresh page with a
   * stored conversation, the pending notice is pushed before the
   * conversation is loaded, so the stored conversation is never loaded and
   * the counter stays at zero; a widget that saves every message also
   * overwrites the stored conversation.
   */
  lemma PendingReturnForgetsConversation(w: Widget, v: ChatView, greeting: string, ms: seq<Message>)
    requires WellKeyed(w) && v.messages == [] && v.count == 0
    requires HasPaymentParams(v.location.query) && CheckPaymentStatus(v.location.query).status == Some(Pending)
    requires ReadMessages(v.session, w.keys.messages) == Parsed(ms) && ms != []
    ensures var r := Initialised(w, v, greeting).0;
      && r.messages == [Said(PendingNotice)] && r.messages != ms + [Said(PendingNotice)] && r.count == 0
      && (w.savesEveryPost ==> ReadMessages(r.session, w.keys.messages) == Parsed([Said(PendingNotice)]))
  {
    var v2 := Returned(w, Opened(w, v));
    assert |ms + [Said(PendingNotice)]| > 1;
    PendingNoticeShown(w, Opened(w, v));
    SettledWithConversation(w, v2, greeting);
    UntouchedReads(Initialised(w, v, greeting).0.session, v2.session, w.keys.messages);
  }

  /** The pending branch of `Returned`: the notice shown, and saved where every post is. */
  lemma PendingNoticeShown(w: Widget, v: ChatView)
    requires HasPaymentParams(v.location.query) && CheckPaymentStatus(v.location.query).status == Some(Pending)
    ensures var r := Returned(w, v);
      && r.messages == v.messages + [Said(PendingNotice)]
      && (w.savesEveryPost ==> ReadMessages(r.session, w.keys.messages) == Parsed(r.messages))
  {
    assert Returned(w, v) == UrlCleaned(Posted(w, v, Said(PendingNotice)));
  }

  /** `Settled` with a conversation already on screen neither loads nor welcomes, and keeps the stored conversation. */
  lemma SettledWithConversation(w: Widget, v: ChatView, greeting: string)
    requires WellKeyed(w) && v.messages != []
    ensures var r := Settled(w, v, greeting);
      r.messages == v.messages && r.count == v.count && Untouched(r.session, v.session, w.keys.messages)
  {
    var v1 := UserLoaded(v);
    if v1.paid && IsSet(v1.blocked) {
      RemoveElsewhere(v1.session, {w.keys.blocked}, w.keys.messages);
    }
  }

  /**
   * The pending branch with the conversation loaded first, as the
   * zodiac-information widget writes it: the stored conversation and counter
   * come back, the notice follows the conversation, and both are saved.
   */
  lemma PendingReturnKeepsConversation(w: Widget, v: ChatView, greeting: string, ms: seq<Message>)
    requires WellKeyed(w) && v.messages == []
    requires HasPaymentParams(v.location.query) && CheckPaymentStatus(v.location.query).status == Some(Pending)
    requires ReadMessages(v.session, w.keys.messages) == Parsed(ms) && ms != []
    ensures var r := InitialisedLoadingFirst(w, v, greeting).0;
      && r.messages == ms + [Said(PendingNotice)] && r.count == CountOf(RawItem(v.session, w.keys.count))
      && ReadMessages(r.session, w.keys.messages) == Parsed(r.messages)
  {
    var v1 := Opened(w, v);
    var s := Settled(w, v1, greeting);
    assert s.messages == ms && s.count == CountOf(RawItem(v.session, w.keys.count));
  }

  // --------------------------------------------- checkout from the widget

  /** The payment modal stays open exactly when a buyer with an e-mail is known; otherwise the data form opens with an error. */
  lemma PromptNeedsBuyerEmail(v: ChatView)
    ensures var r := PaymentPrompted(v);
      && (r.paymentModal <==> r.userData.Some? && r.userData.value.email != "")
      && (!r.paymentModal ==> r.dataModal && r.paymentError == Some(NoBuyerText))
      && (r.paymentModal ==> r.paymentError == None && !r.processing)
      && (v.userData.Some? ==> r.userData == v.userData)
      && r.messages == v.messages && r.count == v.count && r.paid == v.paid && r.session == v.session
  {
  }

  /** Every field of the widget's order is supplied: the service's figures and the buyer, never the service defaults. */
  lemma WidgetOrderUsesNoDefaults(service: ServiceConfig, buyer: UserData)
    ensures WithDefaults(WidgetOrder(service, buyer))
            == OrderData(service.amount, service.serviceName, service.serviceId, OrElse(buyer.firstName, "Usuario"),
                         OrElse(buyer.lastName, "Ecos"), buyer.email, "services", service.description)
  {
    WithDefaultsExtremes(OrderData(service.amount, service.serviceName, service.serviceId,
                                   OrElse(buyer.firstName, "Usuario"), OrElse(buyer.lastName, "Ecos"), buyer.email,
                                   "services", service.description));
  }

  /** The snapshot is saved whatever happens next, before the order is posted. */
  lemma CheckoutSavesFirst(w: Widget, v: ChatView, service: ServiceConfig, outcome: Result<OrderReply, string>,
                           savedAt: string)
    ensures var r := PaymentSubmitted(w, v, service, outcome, savedAt);
      GetPaymentData(r.local) == Some(PaymentRecord(Snapshot(w, v, NoExtras), savedAt))
  {
    var v1 := SnapshotSaved(w, CheckoutStarted(v), NoExtras, savedAt);
    assert Snapshot(w, CheckoutStarted(v), NoExtras) == Snapshot(w, v, NoExtras);
    SaveThenGet(v.local, Snapshot(w, v, NoExtras), savedAt);
    assert PaymentSubmitted(w, v, service, outcome, savedAt).local == v1.local;
  }

  /**
   * The page goes to checkout exactly when a buyer is known and the back
   * end answered with an address; otherwise an error is shown and the widget
   * is no longer busy. The order is posted exactly when a buyer is known.
   */
  lemma CheckoutOutcome(w: Widget, v: ChatView, service: ServiceConfig, outcome: Result<OrderReply, string>,
                        savedAt: string)
    ensures var r := PaymentSubmitted(w, v, service, outcome, savedAt);
      && (r.processing <==> v.userData.Some? && outcome.Success? && CheckoutUrl(outcome.value) != "")
      && (r.processing ==> r.paymentError == None && r.navigation == Some(CheckoutUrl(outcome.value)))
      && (!r.processing ==> r.paymentError.Some? && r.navigation == v.navigation)
      && (v.userData.Some? ==> r.orders == v.orders + [WithDefaults(WidgetOrder(service, v.userData.value))])
      && (v.userData.None? ==> r.orders == v.orders)
      && r.messages == v.messages && r.count == v.count && r.paid == v.paid && r.session == v.session
  {
  }
}
