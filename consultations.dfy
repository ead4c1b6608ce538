/**
 * `startConversation` and `newConsultation`, written alike in the
 * numerology reading and the dream interpreter: the conversation emptied,
 * the three keys removed, and a welcome picked at random.
 */
module Consultations {
  import opened Wrappers
  import opened Text
  import opened Records
  import opened Paywall
  import opened PaywallLaws
  import opened PaywallReturns
  import opened ChatWidgets

  /** The three keys `clearSessionData` removes. */
  function ConversationKeys(w: Widget): set<string>
  {
    {w.keys.messages, w.keys.count, w.keys.blocked}
  }

  /** `startConversation`: the welcome, if the conversation is empty. */
  function Started(w: Widget, v: ChatView, greeting: string): ChatView
  {
    if v.messages == [] then Welcomed(w, v, greeting) else v
  }

  /**
   * `newConsultation` as written: an unpaid user has the counter and block
   * reset before the keys are removed, a paid one after; then the
   * conversation is emptied and started again.
   */
  function ConsultationRenewed(w: Widget, v: ChatView, greeting: string): ChatView
  {
    var v1 :=
      if !v.paid then SessionCleared(w, v.(count := 0, blocked := None))
      else v.(session := v.session - {w.keys.messages, w.keys.count, w.keys.blocked}).(count := 0, blocked := None);
    Started(w, v1.(messages := []), greeting)
  }

  /**
   * Both branches of `newConsultation` do the same: it is the common reset,
   * emptying the conversation and removing the three keys, followed by the
   * welcome, whether or not the user has paid.
   */
  lemma {:induction false} RenewalIsReset(w: Widget, v: ChatView, greeting: string)
    ensures ConsultationRenewed(w, v, greeting) == Welcomed(w, Emptied(v, ConversationKeys(w)), greeting)
    ensures ConsultationRenewed(w, v.(paid := true), greeting) == ConsultationRenewed(w, v.(paid := false), greeting).(paid := true)
  {
    var e := Emptied(v, ConversationKeys(w));
    assert (if !v.paid then SessionCleared(w, v.(count := 0, blocked := None))
            else v.(session := v.session - {w.keys.messages, w.keys.count, w.keys.blocked}).(count := 0, blocked := None)).(messages := [])
        == e;
    var t, f := v.(paid := true), v.(paid := false);
    assert Emptied(t, ConversationKeys(w)) == Emptied(f, ConversationKeys(w)).(paid := true);
  }

  /**
   * `newConsultation` leaves exactly one welcome, a zero counter stored as
   * "0", no block and neither the conversation nor the block in storage,
   * whatever the paid state, which it keeps.
   */
  lemma RenewalLeavesOneWelcome(w: Widget, v: ChatView, greeting: string)
    requires WellKeyed(w) && !w.savesEveryPost
    ensures var r := ConsultationRenewed(w, v, greeting);
      && r.messages == [Said(greeting)] && r.count == 0 && r.blocked == None && r.paid == v.paid
      && CountOf(RawItem(r.session, w.keys.count)) == 0
      && w.keys.messages !in r.session && w.keys.blocked !in r.session
  {
    RenewalIsReset(w, v, greeting);
    var v0 := Emptied(v, ConversationKeys(w));
    ResetLeavesOneWelcome(w, v, ConversationKeys(w), greeting);
    CountSavedTouchesOnly(w, v0.(count := 0), w.keys.messages);
  }

  method StartConversation(c: ChatWidget, greeting: string)
    modifies c, c.browser
    ensures c.View() == Started(c.widget, old(c.View()), greeting)
  {
    if c.messages == [] {
      c.Welcome(greeting);
    }
  }

  method NewConsultation(c: ChatWidget, greeting: string)
    modifies c, c.browser
    ensures c.View() == ConsultationRenewed(c.widget, old(c.View()), greeting)
  {
    ghost var v := c.View();
    if !c.paid {
      c.count, c.blocked := 0, None;
      c.ClearSession();
    } else {
      c.ClearSession();
      c.count, c.blocked := 0, None;
    }
    c.messages := [];
    assert c.View() == Emptied(v, ConversationKeys(c.widget));
    StartConversation(c, greeting);
    RenewalIsReset(c.widget, v, greeting);
  }

  /**
   * Loading a conversation that is missing or does not parse, in a widget
   * that clears the keys of a broken one and welcomes when there is none,
   * leaves the welcome alone with a zero counter stored as "0"; a broken
   * conversation also leaves neither it nor the block in storage.
   */
  lemma UnreadableLoadWelcomesOnce(w: Widget, v: ChatView, greeting: string)
    requires WellKeyed(w) && w.clearsOnMalformed && w.welcomesWhenAbsent && !w.savesEveryPost
    requires v.messages == [] && !ReadMessages(v.session, w.keys.messages).Parsed?
    ensures var r := Loaded(w, v, greeting);
      && r.messages == [Said(greeting)] && r.count == 0 && r.blocked == v.blocked && r.paid == v.paid
      && CountOf(RawItem(r.session, w.keys.count)) == 0
      && (ReadMessages(v.session, w.keys.messages).Malformed? ==>
            w.keys.messages !in r.session && w.keys.blocked !in r.session)
  {
    var v0 := if ReadMessages(v.session, w.keys.messages).Malformed? then SessionCleared(w, v) else v;
    var v1 := CountSaved(w, v0.(count := 0));
    CountOfToString(0);
    assert RawItem(v1.session, w.keys.count) == Some(NatToString(0));
    CountSavedTouchesOnly(w, v0.(count := 0), w.keys.messages);
    CountSavedTouchesOnly(w, v0.(count := 0), w.keys.blocked);
  }
}
