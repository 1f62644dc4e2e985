/** The application's mutable form state (the `useState` hooks of App.tsx) as an
    immutable record, and the handlers that edit it without calculating: the payment
    method buttons and their synchronising effect, the "goods already paid" switch,
    the reset button and loading a quote back from the history. */
module DraftState {
  import opened Wrappers
  import opened Types
  import opened Collaborators

  /** Everything `resetAll` touches: the form inputs plus the map and active-quote state. */
  datatype Draft = Draft(
    clientName: string,
    senderPhone: string,
    recipientPhone: string,
    description: string,
    originAddr: string,
    destAddr: string,
    origin: Option<Location>,
    destination: Option<Location>,
    dwellingType: DwellingType,
    dwellingDetail: string,
    routeGeometry: Option<RouteGeometry>,
    tariffType: TariffType,
    itemAmount: real,
    isItemPaid: bool,
    paymentMethod: PaymentMethod,
    activeQuote: Option<Quote>)

  /** The whole session: the draft, the quote history and whether the history panel is open. */
  datatype Session = Session(draft: Draft, history: seq<Quote>, showHistory: bool)

  /** The initial values of the hooks (App.tsx:35-53). */
  const InitialDraft: Draft := Draft(
    clientName := "", senderPhone := "", recipientPhone := "", description := "",
    originAddr := "", destAddr := "", origin := None, destination := None,
    dwellingType := Casa, dwellingDetail := "", routeGeometry := None,
    tariffType := Tarifa3, itemAmount := 0.0, isItemPaid := false,
    paymentMethod := Cash, activeQuote := None)

  /** The paid flag agrees with the payment method: a transfer means the goods were paid. */
  predicate PaymentSynced(d: Draft) {
    d.isItemPaid <==> d.paymentMethod == Transfer
  }

  /** The form fields a calculation reads but never writes. */
  predicate SameInputs(a: Draft, b: Draft) {
    && a.clientName == b.clientName && a.senderPhone == b.senderPhone
    && a.recipientPhone == b.recipientPhone && a.description == b.description
    && a.originAddr == b.originAddr && a.destAddr == b.destAddr
    && a.dwellingType == b.dwellingType && a.dwellingDetail == b.dwellingDetail
    && a.tariffType == b.tariffType && a.itemAmount == b.itemAmount
    && a.isItemPaid == b.isItemPaid && a.paymentMethod == b.paymentMethod
  }

  /** The effect on `[paymentMethod]` (App.tsx:65-71). React runs it after a render only
      when the method differs from the one of the previous render, `prev`. */
  function PaymentEffect(prev: PaymentMethod, d: Draft): (r: Draft)
    ensures d.paymentMethod != prev ==> PaymentSynced(r)
    ensures d.paymentMethod == prev ==> r == d
    ensures r.paymentMethod == d.paymentMethod
    ensures r == d.(isItemPaid := r.isItemPaid)
  {
    if d.paymentMethod == prev then d
    else if d.paymentMethod == Transfer then d.(isItemPaid := true)
    else d.(isItemPaid := false)
  }

  /** Clicking the cash or transfer button (App.tsx:402, 405), followed by the effect. */
  function SelectPaymentMethod(d: Draft, m: PaymentMethod): (r: Draft)
    ensures r.paymentMethod == m
    ensures m != d.paymentMethod ==> (r.isItemPaid <==> m == Transfer)
    ensures m == d.paymentMethod ==> r == d
    ensures r == d.(paymentMethod := m, isItemPaid := r.isItemPaid)
  {
    PaymentEffect(d.paymentMethod, d.(paymentMethod := m))
  }

  /** The "goods already paid" switch (App.tsx:410). */
  function TogglePaid(d: Draft): (r: Draft)
    ensures r.isItemPaid == !d.isItemPaid
    ensures r.paymentMethod == d.paymentMethod
    ensures r == d.(isItemPaid := r.isItemPaid)
  {
    d.(isItemPaid := !d.isItemPaid)
  }

  lemma TogglePaidInvolution(d: Draft)
    ensures TogglePaid(TogglePaid(d)) == d
  {
  }

  /** The switch always breaks the agreement between method and flag that a method
      change establishes; a second flip restores it. */
  lemma ToggleBreaksSync(d: Draft)
    requires PaymentSynced(d)
    ensures !PaymentSynced(TogglePaid(d))
  {
  }

  /** `resetAll` (App.tsx:73-90). It clears the draft but keeps the history and the
      visibility of the history panel. */
  function ResetAll(s: Session): (r: Session)
    ensures r.draft == InitialDraft
    ensures PaymentSynced(r.draft)
    ensures r.draft.originAddr == "" && r.draft.activeQuote == None
    ensures r.history == s.history && r.showHistory == s.showHistory
  {
    var d := s.draft.(
      originAddr := "", destAddr := "", recipientPhone := "", senderPhone := "",
      clientName := "", description := "", dwellingDetail := "", dwellingType := Casa,
      origin := None, destination := None, routeGeometry := None, activeQuote := None,
      itemAmount := 0.0, isItemPaid := false, paymentMethod := Cash, tariffType := Tarifa3);
    s.(draft := d)
  }

  /** `loadFromHistory` (App.tsx:198-217): the handler's own state updates, before any
      effect runs. */
  function LoadFromHistory(s: Session, q: Quote): (r: Session)
    ensures r.history == s.history && !r.showHistory
    ensures r.draft.clientName == q.clientName && r.draft.senderPhone == q.senderPhone
    ensures r.draft.recipientPhone == q.recipientPhone && r.draft.description == q.description
    ensures r.draft.originAddr == q.origin.address.GetOr("")
    ensures r.draft.destAddr == q.destination.address.GetOr("")
    ensures r.draft.dwellingType == q.dwellingType && r.draft.dwellingDetail == q.dwellingDetail
    ensures r.draft.tariffType == q.tariffType && r.draft.paymentMethod == q.paymentMethod
    ensures r.draft.itemAmount == q.collectAmount
    ensures r.draft.isItemPaid <==> q.collectAmount == 0.0
    ensures r.draft.activeQuote == Some(q) && r.draft.routeGeometry == None
    ensures r.draft.origin == Some(q.origin) && r.draft.destination == Some(q.destination)
  {
    var d := s.draft.(
      clientName := q.clientName,
      senderPhone := q.senderPhone,
      recipientPhone := q.recipientPhone,
      description := q.description,
      originAddr := q.origin.address.GetOr(""),
      destAddr := q.destination.address.GetOr(""),
      dwellingType := q.dwellingType,
      dwellingDetail := q.dwellingDetail,
      tariffType := q.tariffType,
      itemAmount := q.collectAmount,
      isItemPaid := q.collectAmount == 0.0,
      paymentMethod := q.paymentMethod,
      activeQuote := Some(q),
      origin := Some(q.origin),
      destination := Some(q.destination),
      routeGeometry := None);
    Session(d, s.history, false)
  }

  /** Loading from the history followed by the render in which the payment effect may run. */
  function LoadFromHistorySettled(s: Session, q: Quote): (r: Session)
    ensures q.paymentMethod == s.draft.paymentMethod ==> r == LoadFromHistory(s, q)
    ensures q.paymentMethod != s.draft.paymentMethod ==>
              (r.draft.isItemPaid <==> q.paymentMethod == Transfer)
    ensures r == LoadFromHistory(s, q).(draft := LoadFromHistory(s, q).draft.(isItemPaid := r.draft.isItemPaid))
  {
    var l := LoadFromHistory(s, q);
    l.(draft := PaymentEffect(s.draft.paymentMethod, l.draft))
  }
}
