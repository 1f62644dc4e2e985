# Correcaminxs quote assembly, modelled in Dafny

Correcaminxs is a delivery-quoting web app for a courier service in Tandil. The
operator types an origin and a destination, picks a tariff, enters the value of the
goods and how they are paid, and presses "calcular". The app completes both
addresses with the city name, geocodes them, fetches a driving route, asks the fee
helpers for a price, and records a quote in a history of at most fifty entries. A
quote can later be loaded back into the form.

This project models that orchestration layer of `App.tsx` as pure functions over an
immutable `Draft` (the form and map state held in React hooks) and a `Session`
(draft, history, history-panel flag):

- `wrappers.dfy`: `Option`.
- `types.dfy`: the records of `types.ts` (`Location`, `TariffType`, `DwellingType`,
  `PaymentMethod`, `PaymentType`, `Quote`).
- `collaborators.dfy`: the six helpers imported from `utils.ts` (geocoding, routing,
  the Av. Don Bosco corridor test, the special-zone test, the fee, the time
  estimate). They form one `Services` record of arbitrary total functions that the
  caller supplies. The geocoder appears twice in it, once for each of its two
  requests per calculation. Every property below therefore holds whatever those helpers
  compute.
- `text.dfy`: `toLowerCase` and `includes`.
- `address.dfy`: address completion with ", Tandil".
- `history.dfy`: the bounded, newest-first history.
- `draft.dfy`: the form state and the handlers that do not calculate: the payment
  method buttons with their synchronising effect, the "goods already paid" switch,
  `resetAll` and `loadFromHistory`.
- `calculate.dfy`: `handleCalculate`, which covers the guards, the quote literal and
  the history update.
- `reload.dfy`: how the handlers combine. Before the payment effect runs, a reloaded
  quote recalculates to itself. After the effect, it does so in every case but one:
  a transfer quote with something to collect, loaded into a form set to cash. A
  reset form cannot be calculated. Two calculations stack in the history in
  order.

Modelling choices, each following the code:

- The payment effect depends on `[paymentMethod]`. React runs it only when the
  method differs from the previous render's. So pressing the button of the method
  already selected leaves a manually toggled paid flag alone. `PaymentEffect`
  takes the previous method as a parameter to model this.
- When the route lookup fails, the handler has already stored both geocoded
  endpoints (App.tsx:112-113). Only the quote, the route geometry and the history
  stay unchanged. `Calculate` keeps those endpoint updates on the `NoRoute` path.
- A calculation never replaces the draft's address text with the completed address.
  Only the quote's locations carry the completed form. Loading that quote back from
  the history does put the completed addresses into the form (App.tsx:203-204).
- JavaScript numbers are modelled as exact reals. `parseFloat(d.toFixed(2))` is
  modelled as rounding the magnitude half up to a multiple of 0.01.
- Lower-casing is modelled on ASCII letters only. This decides "contains `tandil`"
  exactly as JavaScript's full mapping does. The only non-ASCII characters whose
  lower case contains an ASCII letter are U+0130, which becomes `i` followed by
  U+0307, and U+212A, which becomes `k`. An `i` produced this way is always followed
  by U+0307, never by the `l` that `tandil` needs. And `k` does not occur in
  `tandil`.

## Model

| member | source | states |
|---|---|---|
| `Text.Lower` | App.tsx:98-99 | lower-casing keeps the length and lowers every character independently |
| `Text.Includes` | App.tsx:98-99 | the left-to-right search answers true exactly when the pattern occurs at some index |
| `Text.LowerAppend` | App.tsx:98-99 | lower-casing distributes over concatenation, so the appended ", Tandil" lowers to ", tandil" |
| `Address.SuffixMentionsCity` | App.tsx:98-99 | any address with ", Tandil" appended mentions the city case-insensitively |
| `Address.Normalize` | App.tsx:98-99 | the completed address always mentions "tandil" in any case; it extends the typed one; it equals the typed one exactly when that already mentions the city, and otherwise adds exactly ", Tandil" |
| `Address.NormalizeIdempotent` | App.tsx:98-99 | completing an already completed address changes nothing |
| `Address.NormalizeNonEmpty` | App.tsx:93-99 | a completed address is never empty, so it always passes the emptiness guard |
| `History.Push` | App.tsx:151 | the new quote comes first; the length is min(old+1, 50); the rest are the first min(old, 49) old entries in their original order |
| `History.Reverse` | App.tsx:151 | reference order for the window lemma: position i holds the i-th newest entry |
| `History.PushAllWindow` | App.tsx:151 | after at least one calculation, from any stored history, the history holds the fifty most recent quotes, newest first; with no calculation a history within capacity is unchanged |
| `DraftState.PaymentEffect` | App.tsx:64-71 | when the method changed since the last render, the paid flag becomes "method is transfer"; otherwise nothing changes; only the paid flag is ever written |
| `DraftState.SelectPaymentMethod` | App.tsx:402-407 | choosing transfer marks the goods paid and choosing cash marks them unpaid, whenever the method actually changes; re-choosing the current method changes nothing; nothing but the method and flag changes |
| `DraftState.TogglePaid` | App.tsx:410 | the switch flips the paid flag and leaves the payment method and all other fields alone |
| `DraftState.TogglePaidInvolution` | App.tsx:410 | flipping the switch twice restores the draft |
| `DraftState.ToggleBreaksSync` | App.tsx:410 | from a draft whose flag agrees with its method, the switch produces one where they disagree |
| `DraftState.ResetAll` | App.tsx:73-90 | reset yields exactly the initial hook values of App.tsx:35-53, with cash selected and the goods unpaid; history and the history panel are kept |
| `DraftState.LoadFromHistory` | App.tsx:198-217 | the quote's text fields, addresses, dwelling, tariff and method are copied; item amount becomes the collect amount; the goods count as paid exactly when that amount is 0; the quote becomes active, its endpoints are shown, the route is cleared and the panel closes |
| `DraftState.LoadFromHistorySettled` | App.tsx:65-71 | after the render that follows a reload, the plain reload stands if the method did not change; otherwise the payment effect sets the paid flag to "method is transfer" and every other field keeps the value the plain reload gave it |
| `Calculation.RoundHalfUp` | App.tsx:139 | the rounded integer lies within one half of its argument, rounding up on a tie |
| `Calculation.ToFixed2` | App.tsx:139 | the stored distance is the multiple of 0.01 nearest the route distance, with a tie going to the larger magnitude; it is non-negative for a non-negative distance |
| `Calculation.BuildQuote` | App.tsx:122-148 | the fee is the fee helper applied to the unrounded route distance, the selected tariff and the two flags; the flags are the corridor test of the route geometry and the zone test of the destination; the total is collect amount plus fee, so it is at least the fee for a non-negative item amount; payment type is collect-at-destination; the stored distance is the route distance rounded to cents; id, timestamp, client name, both phones, description, dwelling type and detail, tariff and payment method are copied from the inputs |
| `Calculation.Calculate` | App.tsx:92-155 | a quote is produced exactly when both addresses are non-empty, both completed addresses geocode and a route exists; an empty address aborts with `MissingAddress` and the session untouched, and only an empty address gives that reason; with both addresses typed, a geocoding miss aborts with `AddressNotFound` and the session untouched; on any abort the history, active quote and route are unchanged; on success the quote's endpoints are the geocoders' coordinates for the completed addresses, each carrying its completed address, and the quote is the quote literal built from the draft, those endpoints and the route the routing helper returns for them; the history is the pushed history, the quote becomes active, and the draft shows its endpoints and the route geometry; when only the route is missing the geocoded endpoints are still stored; no form input changes |
| `Reload.CollectRoundTrip` | App.tsx:142 | the collect amount read from a draft loaded from a quote equals the quote's collect amount, so the reload's encoding (item amount plus paid exactly when it is 0, App.tsx:208-209) loses nothing |
| `Reload.RecalculateReloadedQuote` | App.tsx:198-210 | loading a calculated quote into any session and, before the payment effect runs, calculating again with the same collaborators, id and clock reading gives back the identical quote |
| `Reload.RecalculateSettledReloadSameMethod` | App.tsx:65-71 | the same holds after the effect has run, when the reload does not change the payment method |
| `Reload.SettledReloadToTransferDropsCollect` | App.tsx:65-71 | a transfer quote reloaded into a cash form is recalculated with nothing to collect for the goods, since the effect marks them paid |
| `Reload.RecalculateSettledReload` | App.tsx:65-71 | after the payment effect has run on a reload, recalculating reproduces the quote exactly unless it is a transfer quote with a non-zero collect amount loaded into a form set to cash |
| `Reload.ResetBlocksCalculation` | App.tsx:73-96 | after a reset, calculating aborts for a missing address and leaves the session as it is |
| `Reload.TwoCalculationsOrder` | App.tsx:151 | after two successful calculations, the newer quote is first in the history and the older one second |

## Left out

- The bodies of the `utils.ts` helpers are not modelled: geocoding, routing, the Av.
  Don Bosco corridor test, the zone test, the fee tiers and the time estimate. They
  are parameters (`Collaborators.Services`). No fee tier table or distance formula
  is assumed.
- React rendering, JSX and effect scheduling are left out, apart from the
  dependency rule of the payment effect. The loading spinner (`isLoading`) and the
  print mode (`printType`) are also left out.
- Typing into the inputs is left out (the `onChange` handlers in the JSX). This
  includes `parseFloat(...) || 0` for the item value. The model takes the item
  amount as any real.
- `localStorage` loading and saving (App.tsx:59-62, 153) are I/O and are left out.
  A history loaded from storage may exceed fifty entries. `History.Push` brings it
  back within capacity regardless.
- The quote id (`Math.random`) and timestamp (`new Date().toLocaleString()`) are not
  computed. They are opaque string inputs to `Calculate`.
- The alerts are not modelled. Each alert is represented by the `Abort` reason
  instead.
- Floating-point behaviour is left out: numbers are exact reals. This covers
  `totalToCollect` addition without double rounding, and `toFixed(2)` on values of
  1e21 or more, which prints in exponential form.
- CSV export, ticket printing (`window.print`, `setTimeout`) and the WhatsApp
  message are left out. They are presentation and I/O side effects
  (App.tsx:157-196, 219-255).
- `Correcaminos-app/components/MapComponent.tsx` is left out. It renders the map,
  and it forwards each map click to its `onPointSelect` prop (MapComponent.tsx:60-66).
  App.tsx:513 wires that prop to `handleCalculate`, which ignores the clicked point.
  The listener is registered only once (MapComponent.tsx:23). So a click reaches the
  first render's `handleCalculate`, whose address fields are empty. That would stop
  at the App.tsx:93 guard. This click path is not modelled.
- Async sequencing is left out. A calculation makes three awaited requests: the
  origin geocode, the destination geocode and the route. Each is modelled as its own
  function from what it is sent to its answer (`geocodeOrigin`, `geocodeDestination`,
  `getRouteData`). Within one calculation this is as general as arbitrary answers.
  Recalculation lemmas assume the services answer the same again.
