/**
 * What the paywall promises, for every widget configuration whose keys do
 * not collide: how a send is handled, how far an unpaid user can get, what a
 * reply may block, what an approved return restores, and what the resets
 * leave behind.
 */
module PaywallLaws {
  import opened Wrappers
  import opened Text
  import opened Records
  import opened PaymentService
  import opened Paywall

  // ------------------------------------------------------------- storage

  /** Equal free-consultation entries read as equal counts. */
  lemma SameCreditsMeans(w: Widget, s: Storage, t: Storage)
    requires SameCredits(w, s, t)
    ensures Credits(w, s) == Credits(w, t)
  {
    if w.keys.credits.Some? {
      UntouchedReads(s, t, w.keys.credits.value);
    }
  }

  /** The shared buyer key is never a per-service flag. */
  lemma UserDataIsNoServiceFlag(id: string)
    ensures UserDataKey != ServicePaidKey(id)
  {
    assert UserDataKey[0] == 'u';
    assert ServicePaidKey(id)[0] == 's';
  }

  /** Saving the conversation touches no other entry. */
  lemma MessagesSavedTouchesOnly(w: Widget, v: ChatView, key: string)
    requires key != w.keys.messages
    ensures Untouched(MessagesSaved(w, v).session, v.session, key)
  {
    WriteElsewhere(v.session, w.keys.messages, Json(MessagesDoc(v.messages)), key);
  }

  /** Showing a message touches no entry but the conversation. */
  lemma PostedTouchesOnlyMessages(w: Widget, v: ChatView, m: Message, key: string)
    requires key != w.keys.messages
    ensures Untouched(Posted(w, v, m).session, v.session, key)
  {
    MessagesSavedTouchesOnly(w, Pushed(v, m), key);
  }

  /** Storing the counter touches no other entry. */
  lemma CountSavedTouchesOnly(w: Widget, v: ChatView, key: string)
    requires key != w.keys.count
    ensures Untouched(CountSaved(w, v).session, v.session, key)
  {
    WriteElsewhere(v.session, w.keys.count, Text(NatToString(v.count)), key);
  }

  /** Storing the block touches no other entry. */
  lemma BlockedSavedTouchesOnly(w: Widget, v: ChatView, key: string)
    requires key != w.keys.blocked
    ensures Untouched(BlockedSaved(w, v).session, v.session, key)
  {
    if IsSet(v.blocked) {
      WriteElsewhere(v.session, w.keys.blocked, Text(v.blocked.value), key);
    }
  }

  /** Writing the extra entries touches no other entry. */
  lemma ExtrasTouchOnly(v: ChatView, e: Extras, key: string)
    requires key !in e.writes
    ensures Untouched(ExtrasWritten(v, e).session, v.session, key)
  {
    MergeElsewhere(v.session, e.writes, key);
  }

  /** `saveStateBeforePayment` changes only the two storage areas, and saves the snapshot of the state it is given. */
  lemma StateSavedParts(w: Widget, v: ChatView, e: Extras, savedAt: string)
    ensures StateSaved(w, v, e, savedAt)
         == v.(session := ExtrasWritten(BlockedSaved(w, CountSaved(w, MessagesSaved(w, v))), e).session,
               local := SavedPaymentData(v.local, Snapshot(w, v, e), savedAt))
  {
  }

  /** Processing a message touches only the conversation and the counter. */
  lemma ProcessedTouchesOnly(w: Widget, v: ChatView, text: string, key: string)
    requires key != w.keys.messages && key != w.keys.count
    ensures Untouched(Processed(w, v, text).session, v.session, key)
  {
    var m := Message(true, text, None);
    var v1 := CountSaved(w, v.(count := v.count + 1));
    CountSavedTouchesOnly(w, v.(count := v.count + 1), key);
    PostedTouchesOnlyMessages(w, v1, m, key);
    MessagesSavedTouchesOnly(w, Posted(w, v1, m), key);
  }

  /** Saving the state before checkout touches only the conversation, the counter, the block and the extra entries. */
  lemma StateSavedTouchesOnly(w: Widget, v: ChatView, e: Extras, savedAt: string, key: string)
    requires key != w.keys.messages && key != w.keys.count && key != w.keys.blocked && key !in e.writes
    ensures Untouched(StateSaved(w, v, e, savedAt).session, v.session, key)
  {
    var v1 := MessagesSaved(w, v);
    var v2 := CountSaved(w, v1);
    var v3 := BlockedSaved(w, v2);
    MessagesSavedTouchesOnly(w, v, key);
    CountSavedTouchesOnly(w, v1, key);
    BlockedSavedTouchesOnly(w, v2, key);
    ExtrasTouchOnly(v3, e, key);
    StateSavedParts(w, v, e, savedAt);
  }

  /** After `saveStateBeforePayment` the conversation reads back from the session. */
  lemma StateSavedReadsMessages(w: Widget, v: ChatView, e: Extras, savedAt: string)
    requires WellKeyed(w) && ExtrasFit(w, e)
    ensures ReadMessages(StateSaved(w, v, e, savedAt).session, w.keys.messages) == Parsed(v.messages)
  {
    var k := w.keys;
    var v1 := MessagesSaved(w, v);
    var v2 := CountSaved(w, v1);
    var v3 := BlockedSaved(w, v2);
    assert k.messages !in e.writes;
    CountSavedTouchesOnly(w, v1, k.messages);
    BlockedSavedTouchesOnly(w, v2, k.messages);
    ExtrasTouchOnly(v3, e, k.messages);
    StateSavedParts(w, v, e, savedAt);
    UntouchedReads(StateSaved(w, v, e, savedAt).session, v1.session, k.messages);
  }

  /** After `saveStateBeforePayment` the counter reads back from the session. */
  lemma StateSavedReadsCount(w: Widget, v: ChatView, e: Extras, savedAt: string)
    requires WellKeyed(w) && ExtrasFit(w, e)
    ensures CountOf(RawItem(StateSaved(w, v, e, savedAt).session, w.keys.count)) == v.count
  {
    var k := w.keys;
    var v2 := CountSaved(w, MessagesSaved(w, v));
    var v3 := BlockedSaved(w, v2);
    assert k.count !in e.writes;
    BlockedSavedTouchesOnly(w, v2, k.count);
    ExtrasTouchOnly(v3, e, k.count);
    StateSavedParts(w, v, e, savedAt);
    UntouchedReads(StateSaved(w, v, e, savedAt).session, v2.session, k.count);
    CountOfToString(v.count);
  }

  /** After `saveStateBeforePayment` a set block reads back from the session. */
  lemma StateSavedWritesBlock(w: Widget, v: ChatView, e: Extras, savedAt: string)
    requires WellKeyed(w) && ExtrasFit(w, e) && IsSet(v.blocked)
    ensures RawItem(StateSaved(w, v, e, savedAt).session, w.keys.blocked) == v.blocked
  {
    var k := w.keys;
    var v3 := BlockedSaved(w, CountSaved(w, MessagesSaved(w, v)));
    assert k.blocked !in e.writes;
    ExtrasTouchOnly(v3, e, k.blocked);
    StateSavedParts(w, v, e, savedAt);
    UntouchedReads(StateSaved(w, v, e, savedAt).session, v3.session, k.blocked);
  }

  /** `saveStateBeforePayment` leaves the block entry alone when no block is set. */
  lemma StateSavedLeavesBlock(w: Widget, v: ChatView, e: Extras, savedAt: string)
    requires WellKeyed(w) && ExtrasFit(w, e) && !IsSet(v.blocked)
    ensures Untouched(StateSaved(w, v, e, savedAt).session, v.session, w.keys.blocked)
  {
    var k := w.keys;
    var v1 := MessagesSaved(w, v);
    var v2 := CountSaved(w, v1);
    assert k.blocked !in e.writes;
    MessagesSavedTouchesOnly(w, v, k.blocked);
    CountSavedTouchesOnly(w, v1, k.blocked);
    ExtrasTouchOnly(v2, e, k.blocked);
    StateSavedParts(w, v, e, savedAt);
  }

  /**
   * `saveStateBeforePayment`: the conversation and the counter can be read
   * back from the session, the block where one is set, and the snapshot of
   * the state from `localStorage`; the widget's fields are unchanged.
   */
  lemma StateSavedReads(w: Widget, v: ChatView, e: Extras, savedAt: string)
    requires WellKeyed(w) && ExtrasFit(w, e)
    ensures var r := StateSaved(w, v, e, savedAt);
      && ReadMessages(r.session, w.keys.messages) == Parsed(v.messages)
      && CountOf(RawItem(r.session, w.keys.count)) == v.count
      && RawItem(r.session, w.keys.blocked)
         == (if IsSet(v.blocked) then v.blocked else RawItem(v.session, w.keys.blocked))
      && GetPaymentData(r.local) == Some(PaymentRecord(Snapshot(w, v, e), savedAt))
      && r.messages == v.messages && r.count == v.count && r.blocked == v.blocked && r.paid == v.paid
  {
    StateSavedReadsMessages(w, v, e, savedAt);
    StateSavedReadsCount(w, v, e, savedAt);
    if IsSet(v.blocked) {
      StateSavedWritesBlock(w, v, e, savedAt);
    } else {
      StateSavedLeavesBlock(w, v, e, savedAt);
      UntouchedReads(StateSaved(w, v, e, savedAt).session, v.session, w.keys.blocked);
    }
    StateSavedParts(w, v, e, savedAt);
    SaveThenGet(v.local, Snapshot(w, v, e), savedAt);
  }

  // ---------------------------------------------------------------- sends

  /** A blank message, or a send while an answer is awaited, changes nothing and asks nothing. */
  lemma IgnoredSend(w: Widget, v: ChatView, e: Extras, savedAt: string)
    requires !Accepts(v)
    ensures Sent(w, v, e, savedAt) == v && Requested(w, v) == None
  {
  }

  /**
   * Processing counts one message, stores the new count, shows the message
   * and waits for the answer; the free consultations and the pending
   * message are untouched.
   */
  lemma ProcessedCounts(w: Widget, v: ChatView, text: string)
    requires WellKeyed(w)
    ensures var r := Processed(w, v, text);
      && r.count == v.count + 1
      && r.messages == v.messages + [Message(true, text, None)]
      && CountOf(RawItem(r.session, w.keys.count)) == r.count
      && r.input == [] && r.loading
      && r.paid == v.paid && r.blocked == v.blocked && r.local == v.local && r.location == v.location
      && SameCredits(w, r.session, v.session)
      && Untouched(r.session, v.session, w.keys.pending)
  {
    var m := Message(true, text, None);
    var v1 := CountSaved(w, v.(count := v.count + 1));
    PostedTouchesOnlyMessages(w, v1, m, w.keys.count);
    PostedTouchesOnlyMessages(w, Posted(w, v1, m), m, w.keys.count);
    UntouchedReads(Processed(w, v, text).session, v1.session, w.keys.count);
    CountOfToString(v.count + 1);
    ProcessedTouchesOnly(w, v, text, w.keys.pending);
    if w.keys.credits.Some? {
      ProcessedTouchesOnly(w, v, text, w.keys.credits.value);
    }
  }

  /** Spending a free consultation takes exactly one credit and shows how many are left. */
  lemma CreditSpent(w: Widget, v: ChatView)
    requires WellKeyed(w) && Credits(w, v.session) > 0
    ensures var r := CreditUsed(w, v);
      && Credits(w, r.session) == Credits(w, v.session) - 1
      && r.messages == v.messages + [Said(CreditNotice(w, Credits(w, v.session) - 1))]
      && r.count == v.count && r.paid == v.paid && r.blocked == v.blocked && r.input == v.input
      && r.loading == v.loading && r.local == v.local
      && Untouched(r.session, v.session, w.keys.count) && Untouched(r.session, v.session, w.keys.pending)
  {
    var ck := w.keys.credits.value;
    var n := Credits(w, v.session);
    var notice := Said(CreditNotice(w, n - 1));
    var v1 := v.(session := v.session[ck := Text(NatToString(n - 1))]);
    var v2 := Posted(w, v1, notice);
    PostedTouchesOnlyMessages(w, v1, notice, ck);
    PostedTouchesOnlyMessages(w, v2, notice, ck);
    UntouchedReads(MessagesSaved(w, v2).session, v1.session, ck);
    CountOfToString(n - 1);
    WriteElsewhere(v.session, ck, Text(NatToString(n - 1)), w.keys.count);
    PostedTouchesOnlyMessages(w, v1, notice, w.keys.count);
    PostedTouchesOnlyMessages(w, v2, notice, w.keys.count);
    WriteElsewhere(v.session, ck, Text(NatToString(n - 1)), w.keys.pending);
    PostedTouchesOnlyMessages(w, v1, notice, w.keys.pending);
    PostedTouchesOnlyMessages(w, v2, notice, w.keys.pending);
  }

  /** Without credits there is nothing to spend. */
  lemma NoCreditNoChange(w: Widget, v: ChatView)
    requires Credits(w, v.session) == 0
    ensures CreditUsed(w, v) == v
  {
  }

  /**
   * An interception adds no message and does not count one: the message
   * waits under the pending key, the payment modal is closed and the data
   * modal open, and the conversation, the counter and the snapshot are
   * saved. Nothing is asked of the chat service.
   */
  lemma InterceptHoldsBack(w: Widget, v: ChatView, e: Extras, savedAt: string)
    requires WellKeyed(w) && ExtrasFit(w, e) && Intercepts(w, v)
    ensures var r := Sent(w, v, e, savedAt);
      && r.count == v.count && r.messages == v.messages && r.paid == v.paid && r.blocked == v.blocked
      && RawItem(r.session, w.keys.pending) == Some(Trim(v.input))
      && r.dataModal && r.paymentModal == (v.paymentModal && !w.closesPaymentModal)
      && r.input == v.input && r.loading == v.loading
      && SameCredits(w, r.session, v.session)
      && ReadMessages(r.session, w.keys.messages) == Parsed(v.messages)
      && CountOf(RawItem(r.session, w.keys.count)) == v.count
      && GetPaymentData(r.local) == Some(PaymentRecord(Snapshot(w, v, e), savedAt))
    ensures Requested(w, v) == None
  {
    var k := w.keys;
    var t := Trim(v.input);
    var v1 := v.(paymentModal := PaymentModalAfterHold(w, v.paymentModal), session := v.session[k.pending := Text(t)]);
    assert k.pending !in e.writes;
    StateSavedTouchesOnly(w, v1, e, savedAt, k.pending);
    UntouchedReads(StateSaved(w, v1, e, savedAt).session, v1.session, k.pending);
    if k.credits.Some? {
      assert k.credits.value !in e.writes;
      StateSavedTouchesOnly(w, v1, e, savedAt, k.credits.value);
      WriteElsewhere(v.session, k.pending, Text(t), k.credits.value);
    }
    StateSavedReads(w, v1, e, savedAt);
    assert Snapshot(w, v1, e) == Snapshot(w, v, e);
  }

  /**
   * Every send that goes ahead and is not intercepted counts exactly one
   * message and ends with the user's message; every other send counts none
   * and shows none.
   */
  lemma SendOutcomes(w: Widget, v: ChatView, e: Extras, savedAt: string)
    requires WellKeyed(w) && ExtrasFit(w, e)
    ensures var r := Sent(w, v, e, savedAt);
      Accepts(v) && !Intercepts(w, v) ==>
        && r.count == v.count + 1 && |r.messages| > |v.messages|
        && r.messages[|r.messages| - 1] == Message(true, Trim(v.input), None)
        && r.input == [] && r.loading
    ensures var r := Sent(w, v, e, savedAt);
      !Accepts(v) || Intercepts(w, v) ==> r.count == v.count && r.messages == v.messages
    ensures Sent(w, v, e, savedAt).paid == v.paid
  {
    if !Accepts(v) {
    } else if v.paid {
      ProcessedCounts(w, v, Trim(v.input));
    } else if Credits(w, v.session) > 0 {
      CreditSpent(w, v);
      ProcessedCounts(w, CreditUsed(w, v), Trim(v.input));
    } else if v.count >= w.threshold - 1 {
      InterceptHoldsBack(w, v, e, savedAt);
    } else {
      ProcessedCounts(w, v, Trim(v.input));
    }
  }

  /** A paid user's message always goes through. */
  lemma PaidAlwaysProcessed(w: Widget, v: ChatView, e: Extras, savedAt: string)
    requires v.paid && Accepts(v)
    ensures Sent(w, v, e, savedAt) == Processed(w, v, Trim(v.input))
    ensures !Intercepts(w, v) && Requested(w, v).Some?
  {
  }

  /** An unpaid send without credits keeps the credit counter at zero. */
  lemma SendKeepsNoCredits(w: Widget, v: ChatView, e: Extras, savedAt: string)
    requires WellKeyed(w) && ExtrasFit(w, e) && !v.paid && Credits(w, v.session) == 0
    ensures Credits(w, Sent(w, v, e, savedAt).session) == 0
  {
    if Intercepts(w, v) {
      InterceptHoldsBack(w, v, e, savedAt);
    } else if Accepts(v) {
      ProcessedCounts(w, v, Trim(v.input));
    }
    SameCreditsMeans(w, Sent(w, v, e, savedAt).session, v.session);
  }

  /**
   * Without payment and without credits, one send takes the counter at most
   * to `threshold - 1`: below it a message is counted, from it on every
   * message is intercepted.
   */
  lemma UnpaidSendBound(w: Widget, v: ChatView, e: Extras, savedAt: string)
    requires WellKeyed(w) && ExtrasFit(w, e) && !v.paid && Credits(w, v.session) == 0
    ensures Sent(w, v, e, savedAt).count <= v.count || Sent(w, v, e, savedAt).count <= w.threshold - 1
  {
    SendOutcomes(w, v, e, savedAt);
  }

  // -------------------------------------------------------------- answers

  /** A reply is shown with its id and the conversation saved; the counter and the paid state are as they were. */
  lemma ReplyShown(w: Widget, v: ChatView, text: string, id: string, e: Extras, savedAt: string)
    ensures var r := Received(w, v, Reply(text), id, e, savedAt);
      && r.messages == v.messages + [Message(false, text, Some(id))]
      && r.count == v.count && r.paid == v.paid && !r.loading
      && ReadMessages(r.session, w.keys.messages) == Parsed(r.messages)
  {
  }

  /** The block and its snapshot touch nothing but the conversation, the counter, the block and the extra entries. */
  lemma BlockedAtTouchesOnly(w: Widget, v: ChatView, id: string, e: Extras, savedAt: string, key: string)
    requires key != w.keys.messages && key != w.keys.count && key != w.keys.blocked && key !in e.writes
    ensures Untouched(BlockedAt(w, v, id, e, savedAt).session, v.session, key)
  {
    var b := v.(blocked := Some(id), session := v.session[w.keys.blocked := Text(id)]);
    WriteElsewhere(v.session, w.keys.blocked, Text(id), key);
    StateSavedTouchesOnly(w, b, e, savedAt, key);
  }

  /** A reply leaves the free consultations alone. */
  lemma ReplyKeepsCredits(w: Widget, v: ChatView, text: string, id: string, e: Extras, savedAt: string)
    requires WellKeyed(w) && ExtrasFit(w, e)
    ensures SameCredits(w, Received(w, v, Reply(text), id, e, savedAt).session, v.session)
  {
    if w.keys.credits.Some? {
      var ck := w.keys.credits.value;
      var reply := Message(false, text, Some(id));
      var v1 := v.(loading := false);
      var v2 := Posted(w, v1, reply);
      var v3 := if BlockDue(w, v2) then BlockedAt(w, v2, id, e, savedAt) else v2;
      assert ck !in e.writes;
      PostedTouchesOnlyMessages(w, v1, reply, ck);
      if BlockDue(w, v2) {
        BlockedAtTouchesOnly(w, v2, id, e, savedAt, ck);
      }
      MessagesSavedTouchesOnly(w, v3, ck);
    }
  }

  /** Blocking a reply stores the block and the snapshot with it, and opens the data modal. */
  lemma BlockedAtSaves(w: Widget, v: ChatView, id: string, e: Extras, savedAt: string)
    requires WellKeyed(w) && ExtrasFit(w, e)
    ensures var r := BlockedAt(w, v, id, e, savedAt);
      && r.messages == v.messages && r.count == v.count && r.paid == v.paid && r.blocked == Some(id)
      && RawItem(r.session, w.keys.blocked) == Some(id)
      && GetPaymentData(r.local)
         == Some(PaymentRecord(ChatSnapshot(w.historyField, v.messages, v.count, v.userData, Some(id), w.tags, e.attachments), savedAt))
      && r.dataModal && r.paymentModal == (v.paymentModal && !w.closesPaymentModal)
  {
    var b := v.(blocked := Some(id), session := v.session[w.keys.blocked := Text(id)]);
    StateSavedReads(w, b, e, savedAt);
    if !IsSet(b.blocked) {
      UntouchedReads(StateSaved(w, b, e, savedAt).session, b.session, w.keys.blocked);
    }
  }

  /**
   * A reply that finds the user unpaid, without credits and past the free
   * messages blocks: the blocked reply is the one just shown, the block is
   * stored, the state is saved for after checkout and the data modal opens.
   */
  lemma ReplyBlocks(w: Widget, v: ChatView, text: string, id: string, e: Extras, savedAt: string)
    requires WellKeyed(w) && ExtrasFit(w, e) && BlockDue(w, v)
    ensures var r := Received(w, v, Reply(text), id, e, savedAt);
      && r.blocked == Some(id) && RawItem(r.session, w.keys.blocked) == Some(id)
      && IsBlocked(r, r.messages[|r.messages| - 1])
      && GetPaymentData(r.local)
         == Some(PaymentRecord(ChatSnapshot(w.historyField, r.messages, v.count, v.userData, Some(id), w.tags, e.attachments), savedAt))
      && r.dataModal && r.paymentModal == (v.paymentModal && !w.closesPaymentModal)
  {
    var reply := Message(false, text, Some(id));
    var v1 := v.(loading := false);
    var v2 := Posted(w, v1, reply);
    if w.keys.credits.Some? {
      PostedTouchesOnlyMessages(w, v1, reply, w.keys.credits.value);
    }
    SameCreditsMeans(w, v2.session, v.session);
    assert BlockDue(w, v2);
    var v3 := BlockedAt(w, v2, id, e, savedAt);
    BlockedAtSaves(w, v2, id, e, savedAt);
    MessagesSavedTouchesOnly(w, v3, w.keys.blocked);
    UntouchedReads(MessagesSaved(w, v3).session, v3.session, w.keys.blocked);
    assert Received(w, v, Reply(text), id, e, savedAt) == MessagesSaved(w, v3);
  }

  /** Any other reply neither blocks nor saves a snapshot nor opens a modal. */
  lemma ReplyDoesNotBlock(w: Widget, v: ChatView, text: string, id: string, e: Extras, savedAt: string)
    requires WellKeyed(w) && !BlockDue(w, v)
    ensures var r := Received(w, v, Reply(text), id, e, savedAt);
      r.blocked == v.blocked && r.local == v.local && r.dataModal == v.dataModal
  {
    var reply := Message(false, text, Some(id));
    var v1 := v.(loading := false);
    var v2 := Posted(w, v1, reply);
    if w.keys.credits.Some? {
      PostedTouchesOnlyMessages(w, v1, reply, w.keys.credits.value);
    }
    SameCreditsMeans(w, v2.session, v.session);
  }

  /** A reply blocks if and only if the block is due. */
  lemma ReplyBlocksIff(w: Widget, v: ChatView, text: string, id: string, e: Extras, savedAt: string)
    requires WellKeyed(w) && ExtrasFit(w, e)
    ensures Received(w, v, Reply(text), id, e, savedAt).blocked == Some(id) <==> BlockDue(w, v) || v.blocked == Some(id)
  {
    if BlockDue(w, v) {
      ReplyBlocks(w, v, text, id, e, savedAt);
    } else {
      ReplyDoesNotBlock(w, v, text, id, e, savedAt);
    }
  }

  /** A notice is shown without an id, and blocks nothing. */
  lemma NoticeNeverBlocks(w: Widget, v: ChatView, text: string, persisted: bool, id: string, e: Extras, savedAt: string)
    ensures var r := Received(w, v, Notice(text, persisted), id, e, savedAt);
      && r.messages == v.messages + [Said(text)] && r.blocked == v.blocked && r.count == v.count
      && r.paid == v.paid && !r.loading && r.local == v.local
  {
  }

  /**
   * A notice is saved with the conversation when it is persisted or the
   * widget saves every message; otherwise the session is left alone. The
   * free consultations are untouched either way.
   */
  lemma NoticeStorage(w: Widget, v: ChatView, text: string, persisted: bool, id: string, e: Extras, savedAt: string)
    requires WellKeyed(w)
    ensures var r := Received(w, v, Notice(text, persisted), id, e, savedAt);
      && SameCredits(w, r.session, v.session)
      && (persisted || w.savesEveryPost ==> ReadMessages(r.session, w.keys.messages) == Parsed(r.messages))
      && (!persisted && !w.savesEveryPost ==> r.session == v.session)
  {
    var v1 := v.(loading := false);
    var v2 := Posted(w, v1, Said(text));
    if w.keys.credits.Some? {
      PostedTouchesOnlyMessages(w, v1, Said(text), w.keys.credits.value);
      MessagesSavedTouchesOnly(w, v2, w.keys.credits.value);
    }
  }

  /** Answers do not count messages, do not pay, and leave the credits alone. */
  lemma ReceiveKeepsCount(w: Widget, v: ChatView, answer: Answer, id: string, e: Extras, savedAt: string)
    requires WellKeyed(w) && ExtrasFit(w, e)
    ensures var r := Received(w, v, answer, id, e, savedAt);
      r.count == v.count && r.paid == v.paid && Credits(w, r.session) == Credits(w, v.session)
  {
    match answer {
      case Reply(text) => ReplyShown(w, v, text, id, e, savedAt); ReplyKeepsCredits(w, v, text, id, e, savedAt);
      case Notice(text, persisted) => NoticeStorage(w, v, text, persisted, id, e, savedAt);
    }
    SameCreditsMeans(w, Received(w, v, answer, id, e, savedAt).session, v.session);
  }

  /** Once paid, no message is blocked; while unpaid, only the message carrying the blocked id is. */
  lemma BlockedOnlyWhileUnpaid(v: ChatView, m: Message, n: Message)
    ensures v.paid ==> !IsBlocked(v, m)
    ensures IsBlocked(v, m) && IsBlocked(v, n) ==> m.id == n.id
    ensures m.id.None? ==> !IsBlocked(v, m)
  {
  }

  // ------------------------------------------------------ a whole session

  /** What the user can do to a widget between two page loads. */
  datatype Event = Typed(text: string) | Sending | Answered(answer: Answer, id: string)

  /** The widget after a run of events, each extra snapshot part and time stamp fixed. */
  function Run(w: Widget, v: ChatView, events: seq<Event>, e: Extras, savedAt: string): ChatView
    decreases |events|
  {
    if events == [] then v
    else
      var next := match events[0]
        case Typed(t) => v.(input := t)
        case Sending => Sent(w, v, e, savedAt)
        case Answered(a, id) => Received(w, v, a, id, e, savedAt);
      Run(w, next, events[1..], e, savedAt)
  }

  /**
   * The paywall's guarantee: however the user types, sends and is answered,
   * without paying and without free consultations the counter never passes
   * `threshold - 1` (or where it started, if higher), and the user stays
   * unpaid.
   */
  lemma {:induction false} FreeMessagesBound(w: Widget, v: ChatView, events: seq<Event>, e: Extras, savedAt: string)
    requires WellKeyed(w) && ExtrasFit(w, e) && !v.paid && Credits(w, v.session) == 0
    ensures var r := Run(w, v, events, e, savedAt);
      (r.count <= v.count || r.count <= w.threshold - 1) && !r.paid
    decreases |events|
  {
    if events != [] {
      var next := match events[0]
        case Typed(t) => v.(input := t)
        case Sending => Sent(w, v, e, savedAt)
        case Answered(a, id) => Received(w, v, a, id, e, savedAt);
      match events[0] {
        case Typed(t) =>
        case Sending =>
          UnpaidSendBound(w, v, e, savedAt);
          SendKeepsNoCredits(w, v, e, savedAt);
          SendOutcomes(w, v, e, savedAt);
        case Answered(a, id) =>
          ReceiveKeepsCount(w, v, a, id, e, savedAt);
      }
      FreeMessagesBound(w, next, events[1..], e, savedAt);
    }
  }

  // ------------------------------------------------------------- history

  /** Dropping blank messages distributes over concatenation, so it keeps the order. */
  lemma {:induction false} NonBlankOnlyAppend(a: seq<Message>, b: seq<Message>)
    ensures NonBlankOnly(a + b) == NonBlankOnly(a) + NonBlankOnly(b)
    decreases |a|
  {
    if a == [] {
      assert a + b == b;
    } else {
      assert (a + b)[1..] == a[1..] + b;
      NonBlankOnlyAppend(a[1..], b);
    }
  }

  /** What is kept is exactly the messages whose text is not blank. */
  lemma {:induction false} NonBlankOnlyKeeps(messages: seq<Message>)
    ensures forall m :: m in NonBlankOnly(messages) <==> m in messages && Trim(m.text) != []
    decreases |messages|
  {
    if messages != [] {
      NonBlankOnlyKeeps(messages[1..]);
      assert messages == [messages[0]] + messages[1..];
    }
  }

  /** The turns of two message lists one after the other are the turns of the joined list. */
  lemma TurnsAppend(role: string, a: seq<Message>, b: seq<Message>)
    ensures Turns(role, a + b) == Turns(role, a) + Turns(role, b)
  {
  }

  /** What the conversation holds, just before the user's message is added, in a send that is not held back. */
  function Before(w: Widget, v: ChatView): seq<Message>
  {
    if !v.paid && Credits(w, v.session) > 0 then v.messages + [Said(CreditNotice(w, Credits(w, v.session) - 1))]
    else v.messages
  }

  /**
   * A send that goes ahead asks the chat service about the trimmed message,
   * with the history built from the conversation as it is once the message
   * (and, for a free consultation, its notice) has been added.
   */
  lemma RequestedAfterAdding(w: Widget, v: ChatView)
    requires WellKeyed(w) && Accepts(v) && !Intercepts(w, v)
    ensures Requested(w, v)
         == Some(ChatRequest(Trim(v.input), History(w, Before(w, v) + [Message(true, Trim(v.input), None)])))
  {
    var text := Trim(v.input);
    if !v.paid && Credits(w, v.session) > 0 {
      CreditSpent(w, v);
      assert Sent(w, v, NoExtras, "") == Processed(w, CreditUsed(w, v), text);
    } else {
      assert Sent(w, v, NoExtras, "") == Processed(w, v, text);
    }
  }

  /**
   * The history rules, applied to a conversation ending with the user's
   * message: missing, everything, everything before the message, at most the
   * last ten messages ending with it, or every non-blank message ending with it.
   */
  lemma HistoryRules(w: Widget, before: seq<Message>, text: string)
    requires Trim(text) != []
    ensures var h := History(w, before + [Message(true, text, None)]);
      && (w.history == NotSent ==> h.None?)
      && (w.history == Everything ==> h == Some(Turns(w.assistantRole, before) + [Turn("user", text)]))
      && (w.history == WithoutLast ==> h == Some(Turns(w.assistantRole, before)))
      && (w.history == LastTen ==> h.Some? && 0 < |h.value| <= 10 && h.value[|h.value| - 1] == Turn("user", text))
      && (w.history == NonBlank ==> h == Some(Turns(w.assistantRole, NonBlankOnly(before)) + [Turn("user", text)]))
  {
    var m := Message(true, text, None);
    var all := before + [m];
    TurnsAppend(w.assistantRole, before, [m]);
    assert Turns(w.assistantRole, [m]) == [Turn("user", text)];
    assert AllButLast(all) == before;
    NonBlankOnlyAppend(before, [m]);
    assert [m][1..] == [];
    assert NonBlankOnly([m]) == [m];
    TurnsAppend(w.assistantRole, NonBlankOnly(before), [m]);
  }

  /** What a paid send, or an unpaid one without credits, asks of the chat service. */
  lemma RequestHistory(w: Widget, v: ChatView)
    requires WellKeyed(w) && Accepts(v) && !Intercepts(w, v) && (v.paid || Credits(w, v.session) == 0)
    ensures Requested(w, v).Some? && Requested(w, v).value.text == Trim(v.input)
    ensures var h := Requested(w, v).value.history;
      && (w.history == NotSent ==> h.None?)
      && (w.history == Everything ==> h == Some(Turns(w.assistantRole, v.messages) + [Turn("user", Trim(v.input))]))
      && (w.history == WithoutLast ==> h == Some(Turns(w.assistantRole, v.messages)))
      && (w.history == LastTen ==>
           h.Some? && 0 < |h.value| <= 10 && h.value[|h.value| - 1] == Turn("user", Trim(v.input)))
      && (w.history == NonBlank ==>
           h == Some(Turns(w.assistantRole, NonBlankOnly(v.messages)) + [Turn("user", Trim(v.input))]))
  {
    RequestedAfterAdding(w, v);
    TrimIdempotent(v.input);
    HistoryRules(w, v.messages, Trim(v.input));
  }
}
