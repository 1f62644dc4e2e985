/** How the handlers fit together: what a quote loaded back from the history gives
    when recalculated against the same collaborators, before and after the payment
    effect has run; a reset draft cannot be calculated; two calculations stack in the
    history in order. */
module Reload {
  import opened Types
  import opened Collaborators
  import opened DraftState
  import opened Calculation

  /** Loading a quote stores its collect amount as the item amount and derives the paid
      flag from it; reading the collect amount back from that draft recovers it. */
  lemma CollectRoundTrip(s: Session, q: Quote)
    ensures CollectAmount(LoadFromHistory(s, q).draft) == q.collectAmount
  {
  }

  /** Loading a calculated quote and calculating again, before the payment effect
      runs, with the same lookups, fee helpers, identifier and clock reading, gives
      back the very same quote: the completed addresses are stable under completion,
      and the collect amount survives the reload. */
  lemma RecalculateReloadedQuote(s: Session, s': Session, svc: Services, id: string, ts: string)
    requires Calculate(s, svc, id, ts).outcome.Quoted?
    ensures var q := Calculate(s, svc, id, ts).outcome.quote;
            Calculate(LoadFromHistory(s', q), svc, id, ts).outcome == Quoted(q)
  {
  }

  /** When the reloaded quote carries the payment method already selected, the effect
      does not run and the quote still reproduces itself. */
  lemma RecalculateSettledReloadSameMethod(s: Session, s': Session, svc: Services, id: string, ts: string)
    requires Calculate(s, svc, id, ts).outcome.Quoted?
    requires Calculate(s, svc, id, ts).outcome.quote.paymentMethod == s'.draft.paymentMethod
    ensures var q := Calculate(s, svc, id, ts).outcome.quote;
            Calculate(LoadFromHistorySettled(s', q), svc, id, ts).outcome == Quoted(q)
  {
  }

  /** When the reload switches the method to transfer, the effect marks the goods as
      paid, so a recalculation collects nothing for them even though the stored quote
      did. */
  lemma SettledReloadToTransferDropsCollect(s: Session, s': Session, svc: Services, id: string, ts: string)
    requires Calculate(s, svc, id, ts).outcome.Quoted?
    requires Calculate(s, svc, id, ts).outcome.quote.paymentMethod == Transfer
    requires s'.draft.paymentMethod == Cash
    ensures var q := Calculate(s, svc, id, ts).outcome.quote;
            var again := Calculate(LoadFromHistorySettled(s', q), svc, id, ts).outcome;
            again.Quoted? && again.quote.collectAmount == 0.0
  {
  }

  /** After a reset nothing can be calculated: the missing-address guard fires and the
      session is left as it was. */
  lemma ResetBlocksCalculation(s: Session, svc: Services, id: string, ts: string)
    ensures var r := ResetAll(s);
            Calculate(r, svc, id, ts) == Step(r, Aborted(MissingAddress))
  {
  }

  /** Any two successful calculations in a row leave the newer quote first and the
      older one second in the history. */
  lemma TwoCalculationsOrder(s: Session, svc: Services, id1: string, ts1: string, id2: string, ts2: string)
    requires Calculate(s, svc, id1, ts1).outcome.Quoted?
    requires Calculate(Calculate(s, svc, id1, ts1).next, svc, id2, ts2).outcome.Quoted?
    ensures var first := Calculate(s, svc, id1, ts1);
            var second := Calculate(first.next, svc, id2, ts2);
            && |second.next.history| >= 2
            && second.next.history[0] == second.outcome.quote
            && second.next.history[1] == first.outcome.quote
  {
  }

  /** The reachable round trip: once the render after the reload has run the payment
      effect, recalculating reproduces the quote except in exactly one case, a transfer
      quote with something to collect loaded into a form set to cash. */
  lemma RecalculateSettledReload(s: Session, s': Session, svc: Services, id: string, ts: string)
    requires Calculate(s, svc, id, ts).outcome.Quoted?
    ensures var q := Calculate(s, svc, id, ts).outcome.quote;
            Calculate(LoadFromHistorySettled(s', q), svc, id, ts).outcome == Quoted(q)
            <==> !(q.paymentMethod == Transfer && s'.draft.paymentMethod == Cash && q.collectAmount != 0.0)
  {
  }
}
