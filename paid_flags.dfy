/**
 * The per-service paid flags (`service_paid_<id>`) across widgets. Each
 * widget starts paid when the flag of its `paidServiceId` is set, and an
 * approved return sets that flag. Four widgets read and write an id other
 * than the one of their own service configuration: the vocational map '4'
 * (its own is '5'), the dreams '1' (own '2'), the numerology '3' (own '4')
 * and the birth chart '6' (own '7'). Two of those ids are another widget's
 * as written, numerology's and the birth chart's: a payment for one unlocks
 * the other. Moving numerology alone to its own '4' would collide with the
 * vocational map, so the corrected model moves all four, and every widget
 * is then kept apart from every other.
 */
module PaidFlags {
  import opened Wrappers
  import opened Records
  import opened PaymentService
  import opened Paywall
  import opened PaywallReturns
  import ZodiacInfo
  import InnerAnimal
  import LoveCalculator
  import ChineseZodiac
  import VocationalMap
  import Numerology
  import DreamMeaning
  import BirthChart

  /** A widget whose approved return sets the flag another widget reads opens that widget paid. */
  lemma SharedServiceUnlocks(w: Widget, u: Widget, v: ChatView)
    requires WellKeyed(w) && ApartFromShared(w) && u.paidServiceId == w.paidServiceId
    ensures Opened(u, MarkedPaid(w, v)).paid
  {
    MarkedPaidFacts(w, v);
  }

  /**
   * A widget whose approved return writes neither of another widget's two
   * flags leaves the paid state that widget opens with as it was.
   */
  lemma SeparateServicesApart(w: Widget, u: Widget, v: ChatView)
    requires u.paidServiceId != w.paidServiceId
    requires u.keys.paidFlag != w.keys.paidFlag && u.keys.paidFlag != ServicePaidKey(w.paidServiceId)
    requires u.keys.paidFlag != w.keys.blocked
    requires ServicePaidKey(u.paidServiceId) != w.keys.paidFlag && ServicePaidKey(u.paidServiceId) != w.keys.blocked
    ensures Opened(u, MarkedPaid(w, v)).paid == Opened(u, v).paid
  {
    var s := MarkedPaid(w, v).session;
    ServicePaidKeyInjective(u.paidServiceId, w.paidServiceId);
    MarkedPaidTouchesOnly(w, v, u.keys.paidFlag);
    MarkedPaidTouchesOnly(w, v, ServicePaidKey(u.paidServiceId));
    UntouchedReads(s, v.session, u.keys.paidFlag);
    UntouchedReads(s, v.session, ServicePaidKey(u.paidServiceId));
  }

  // ----------------------------------------------------------- as written

  /**
   * The numerology reading marks service '3' paid, the zodiac information's
   * own service: an unpaid visitor who pays for numerology finds the zodiac
   * information unlocked.
   */
  lemma NumerologyPaymentUnlocksZodiac(v: ChatView)
    requires !Opened(ZodiacInfo.Config, v).paid
    ensures Opened(ZodiacInfo.Config, MarkedPaid(Numerology.Config, v)).paid
  {
    Numerology.ConfigFits();
    SharedServiceUnlocks(Numerology.Config, ZodiacInfo.Config, v);
  }

  /**
   * The birth chart marks service '6' paid, the inner animal's own service,
   * and the inner animal reads it: a payment for the birth chart unlocks the
   * inner animal, and one for the inner animal unlocks the birth chart.
   */
  lemma BirthChartPaymentUnlocksAnimal(v: ChatView)
    ensures Opened(InnerAnimal.Config, MarkedPaid(BirthChart.Config, v)).paid
    ensures Opened(BirthChart.Config, MarkedPaid(InnerAnimal.Config, v)).paid
  {
    BirthChart.ConfigFits();
    InnerAnimal.ConfigFits();
    SharedServiceUnlocks(BirthChart.Config, InnerAnimal.Config, v);
    SharedServiceUnlocks(InnerAnimal.Config, BirthChart.Config, v);
  }

  // -------------------------------------------------------------- corrected

  /** The widget reading and writing the id of its own service configuration. */
  function OwnService(w: Widget, service: ServiceConfig): (r: Widget)
    ensures r.paidServiceId == service.serviceId && r.keys == w.keys && r.threshold == w.threshold
  {
    w.(paidServiceId := service.serviceId)
  }

  const CorrectedVocational := OwnService(VocationalMap.Config, VocationalMap.Service)
  const CorrectedNumerology := OwnService(Numerology.Config, Numerology.Service)
  const CorrectedDreams := OwnService(DreamMeaning.Config, DreamMeaning.Service)
  const CorrectedBirthChart := OwnService(BirthChart.Config, BirthChart.Service)

  /** Neither widget's approved return changes the paid state the other opens with. */
  predicate ApartAt(u: Widget, w: Widget, v: ChatView)
  {
    && Opened(u, MarkedPaid(w, v)).paid == Opened(u, v).paid
    && Opened(w, MarkedPaid(u, v)).paid == Opened(w, v).paid
  }

  /** Two widgets on different ids, neither writing a flag the other reads, are kept apart. */
  lemma KeysApart(u: Widget, w: Widget, v: ChatView)
    requires u.paidServiceId != w.paidServiceId
    requires u.keys.paidFlag != w.keys.paidFlag && u.keys.blocked != w.keys.paidFlag && u.keys.paidFlag != w.keys.blocked
    requires ServicePaidKey(w.paidServiceId) != u.keys.paidFlag && ServicePaidKey(w.paidServiceId) != u.keys.blocked
    requires ServicePaidKey(u.paidServiceId) != w.keys.paidFlag && ServicePaidKey(u.paidServiceId) != w.keys.blocked
    ensures ApartAt(u, w, v)
  {
    SeparateServicesApart(u, w, v);
    SeparateServicesApart(w, u, v);
  }

  /**
   * Numerology on its own id '4' while the vocational map stays on the '4'
   * it uses as written: a payment for numerology unlocks the vocational map,
   * and one for the vocational map unlocks numerology.
   */
  lemma NumerologyAloneUnlocksVocational(v: ChatView)
    ensures Opened(VocationalMap.Config, MarkedPaid(CorrectedNumerology, v)).paid
    ensures Opened(CorrectedNumerology, MarkedPaid(VocationalMap.Config, v)).paid
  {
    Numerology.ConfigFits();
    VocationalMap.ConfigFits();
    SharedServiceUnlocks(CorrectedNumerology, VocationalMap.Config, v);
    SharedServiceUnlocks(VocationalMap.Config, CorrectedNumerology, v);
  }

  /**
   * The ids the eight widgets' flags use once each uses its own service's:
   * love, zodiac information, inner animal, Chinese zodiac, vocational map,
   * numerology, dreams and birth chart. They are all different.
   */
  lemma OwnServiceIdsDistinct()
    ensures var ids := [LoveCalculator.Service.serviceId, ZodiacInfo.Config.paidServiceId,
                        InnerAnimal.Service.serviceId, ChineseZodiac.Service.serviceId,
                        VocationalMap.Service.serviceId, Numerology.Service.serviceId,
                        DreamMeaning.Service.serviceId, BirthChart.Service.serviceId];
      forall i, j :: 0 <= i < j < |ids| ==> ids[i] != ids[j]
  {
  }

  /** With its own id '4', numerology keeps its flags apart from the zodiac information's, both ways. */
  lemma CorrectedNumerologyKeepsApart(v: ChatView)
    ensures ApartAt(CorrectedNumerology, ZodiacInfo.Config, v)
  {
    KeysApart(CorrectedNumerology, ZodiacInfo.Config, v);
  }

  /** With its own id '4', numerology keeps its flags apart from the love calculator's, both ways. */
  lemma CorrectedNumerologyApartFromLove(v: ChatView)
    ensures ApartAt(CorrectedNumerology, LoveCalculator.Config, v)
  {
    KeysApart(CorrectedNumerology, LoveCalculator.Config, v);
  }

  /** With its own id '4', numerology keeps its flags apart from the inner animal's, both ways. */
  lemma CorrectedNumerologyApartFromAnimal(v: ChatView)
    ensures ApartAt(CorrectedNumerology, InnerAnimal.Config, v)
  {
    KeysApart(CorrectedNumerology, InnerAnimal.Config, v);
  }

  /** With its own id '4', numerology keeps its flags apart from the Chinese zodiac's, both ways. */
  lemma CorrectedNumerologyApartFromChineseZodiac(v: ChatView)
    ensures ApartAt(CorrectedNumerology, ChineseZodiac.Config, v)
  {
    KeysApart(CorrectedNumerology, ChineseZodiac.Config, v);
  }

  /** With its own id '4', numerology keeps its flags apart from the vocational map's on its own '5', both ways. */
  lemma CorrectedNumerologyApartFromVocational(v: ChatView)
    ensures ApartAt(CorrectedNumerology, CorrectedVocational, v)
  {
    KeysApart(CorrectedNumerology, CorrectedVocational, v);
  }

  /** With its own id '4', numerology keeps its flags apart from the dreams' on their own '2', both ways. */
  lemma CorrectedNumerologyApartFromDreams(v: ChatView)
    ensures ApartAt(CorrectedNumerology, CorrectedDreams, v)
  {
    KeysApart(CorrectedNumerology, CorrectedDreams, v);
  }

  /** With its own id '4', numerology keeps its flags apart from the birth chart's on its own '7', both ways. */
  lemma CorrectedNumerologyApartFromBirthChart(v: ChatView)
    ensures ApartAt(CorrectedNumerology, CorrectedBirthChart, v)
  {
    KeysApart(CorrectedNumerology, CorrectedBirthChart, v);
  }

  /** With its own id '7', the birth chart keeps its flags apart from the inner animal's, both ways. */
  lemma CorrectedBirthChartKeepsApart(v: ChatView)
    ensures Opened(InnerAnimal.Config, MarkedPaid(CorrectedBirthChart, v)).paid == Opened(InnerAnimal.Config, v).paid
    ensures Opened(CorrectedBirthChart, MarkedPaid(InnerAnimal.Config, v)).paid == Opened(CorrectedBirthChart, v).paid
  {
    SeparateServicesApart(CorrectedBirthChart, InnerAnimal.Config, v);
    SeparateServicesApart(InnerAnimal.Config, CorrectedBirthChart, v);
  }
}
