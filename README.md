# Lucky-money bag widget: a verified model

The widget shows a grid of twelve gift bags. Clicking an unopened bag
starts an opening. After a short delay the bag reveals a random amount
drawn between two configurable bounds and rounded to the nearest 1000.
The revealed session is logged at the front of a history, and the header
shows the running total of that history. A confirmed reset closes every
bag but keeps the history.

The model covers the bookkeeping of the `App` component in `App.tsx`. The
record shapes come from `types.ts` and the bag count from `constants.ts`.

- `types.dfy` (module `Types`): `Session`, `Bag`, `Option`, the bag count (12) and the denomination set.
- `amount.dfy` (module `Amount`): `getRandomAmount` as pure functions. The random draw is a parameter `offset` in `[0, max - min]`. `Math.round(v / 1000) * 1000` is computed exactly in integers as `((v + 500) / 1000) * 1000`.
- `ledger.dfy` (module `Ledger`): `totalMoney` as the left fold that `reduce` performs. It is proved equal to a reference sum.
- `bags.dfy` (module `Bags`): the expressions the handlers apply to the bag list. These are creation (`Array.from`), the `find` in the guard, and the two `map`s of opening and reset.
- `app.dfy` (module `LuckyApp`): class `App`. Its fields are the component's state: `bags`, `history`, `isOpening`, `currentReveal`, `minAmount` and `maxAmount`. A further field, `scheduled`, holds the completion that the delay will run. Each handler is a method, and every method keeps `Valid()`. `Valid()` says:
  - bag `i` has id `i`;
  - a bag is opened exactly when it has content;
  - every bag content and the current reveal appear in the history;
  - every history amount is a multiple of 1000;
  - the busy flag is set exactly while a completion is scheduled;
  - the bag a scheduled completion will open is still closed.

`openBag` is split into two methods:
- `StartOpen` is the synchronous guard. It sets the busy flag and records the id and the settings the handler's closure captured.
- `CompleteOpen` is the `setTimeout` callback.

The `find` guard lets an id that is not a bag through. The model keeps that behaviour: completing such an opening changes no bag but still prepends a session to the history.

One might expect every amount to lie between the two settings. The comment
at App.tsx:34 promises that only of the value before rounding, and the model
follows the code. Rounding keeps the amount within 500 of the draw. Every
amount lies in the range exactly when the smaller setting does not round
down and the larger does not round up (`StaysInRangeIff`). This holds
whenever both settings are multiples of 1000, and then the possible amounts
are exactly the multiples of 1000 between them
(`AlignedSettingsStayInRange`). It can also hold for other settings: 10000
and 10400 only ever yield 10000 (`MisalignedSettingsCanStayInRange`). With
settings 10500 and 10600 every draw yields 11000
(`MisalignedSettingsLeaveRange`). The amount is also not
restricted to the denomination type's four values: the default settings
can yield 40000.

## Model

| member | source | states |
|---|---|---|
| `Amount.RoundToThousand` | App.tsx:37-38 | the rounded value is a multiple of 1000 and lies in (v - 500, v + 500] |
| `Amount.RoundUnique` | App.tsx:38 | the rounded value is the only multiple of 1000 in (v - 500, v + 500] |
| `Amount.RoundIsNearest` | App.tsx:37-38 | no multiple of 1000 is nearer to the drawn value; of two equally near ones the larger is chosen (halves round up) |
| `Amount.DrawnValue` | App.tsx:30-35 | the pre-rounding value lies between the smaller and the larger setting, whichever order they are in |
| `Amount.RandomAmount` | App.tsx:29-39 | the generated amount is a multiple of 1000 and lies in (lo - 500, hi + 500], where lo and hi are the ordered settings |
| `Amount.SwapSettings` | App.tsx:30-32 | exchanging the two settings changes neither any draw nor the set of possible amounts |
| `Amount.AlignedSettingsStayInRange` | App.tsx:31-38 | with both settings multiples of 1000, the possible amounts are exactly the multiples of 1000 between them |
| `Amount.RoundMonotone` | App.tsx:38 | rounding never reverses the order of two drawn values |
| `Amount.StaysInRangeIff` | App.tsx:31-38 | every possible amount lies between the ordered settings if and only if the smaller does not round down and the larger does not round up |
| `Amount.MisalignedSettingsCanStayInRange` | App.tsx:35-38 | with settings 10000 and 10400 the only possible amount is 10000, inside the range |
| `Amount.MisalignedSettingsLeaveRange` | App.tsx:35-38 | with settings 10500 and 10600 the only possible amount is 11000, outside the range |
| `Amount.DefaultSettingsLeaveDenominations` | App.tsx:48-51 | under the default settings 40000 can be generated, which is not one of the four denominations |
| `Ledger.FoldIsSum` | App.tsx:70 | the left fold from an accumulator adds the sum of the history amounts to it |
| `Ledger.TotalMoney` | App.tsx:70 | the total equals the sum of every history amount |
| `Ledger.TotalPrepend` | App.tsx:56 | prepending a session raises the total by exactly its amount |
| `Ledger.TotalOfThousands` | App.tsx:70 | a history of multiples of 1000 totals a multiple of 1000 |
| `Bags.InitialBags` | App.tsx:21-27 | twelve bags with ids 0..11, all closed and empty |
| `Bags.FindBag` | App.tsx:42 | `find` yields nothing exactly when no bag has the id, else the first bag that has it |
| `Bags.RefusedOnWellFormed` | App.tsx:42 | on bags with ids 0..11 the guard refuses exactly when busy or when the target bag is opened; an unknown id is not refused |
| `Bags.MarkOpened` | App.tsx:55 | the bag with the id becomes opened with the session as content, every other bag is unchanged |
| `Bags.MarkOpenedWellFormed` | App.tsx:55 | opening keeps ids and the opened/content agreement; an id outside 0..11 changes no bag |
| `Bags.ClearBags` | App.tsx:65 | reset keeps every id and leaves every bag closed with no content |
| `Bags.ClearBagsIsInitial` | App.tsx:65 | resetting bags with ids 0..11 gives back the freshly created list |
| `LuckyApp.App.constructor` | App.tsx:9-27 | initial state: twelve closed bags, empty history, not busy, no reveal, settings 10000 and 50000 |
| `LuckyApp.App.StartOpen` | App.tsx:41-46 | a refused open (busy, or bag already opened) changes nothing; otherwise only the busy flag and the scheduled completion change, with the id and current settings captured |
| `LuckyApp.App.CompleteOpen` | App.tsx:47-60 | opens the scheduled bag with the new session, leaves every other bag and every opened bag unchanged, prepends exactly that session to the history, raises the total by its amount, reveals it and clears the busy flag |
| `LuckyApp.App.ResetGame` | App.tsx:63-68 | confirmed: all bags closed and emptied, reveal cleared, history and total unchanged; not confirmed: nothing changes |
| `LuckyApp.App.DismissReveal` | App.tsx:183 | the reveal is cleared and nothing else changes |
| `LuckyApp.App.SetMinAmount` | App.tsx:212 | the lower setting takes the entered value unvalidated; nothing else changes |
| `LuckyApp.App.SetMaxAmount` | App.tsx:222 | the upper setting takes the entered value unvalidated; nothing else changes |

## Left out

- Rendering: the JSX, styling, icons and the confetti effect (App.tsx:58). They are presentation only, and `components/Confetti` is not part of this model.
- The first render, before the mount effect runs, when `bags` is still empty (App.tsx:9). The constructor yields the state after the effect (App.tsx:21-27). No bag can be clicked before then, because the grid renders no buttons.
- The `showHistory` and `showSettings` flags and their toggles. They only open and close panels.
- `services/geminiService.ts`: it calls an external text-generation service, and `App.tsx` never uses it.
- Randomness and the clock. `Math.random` becomes the `offset` parameter. The session id string and `Date.now()` are parameters of `CompleteOpen`. Uniformity of the draw and uniqueness of the ids are not modelled.
- The 600 ms delay. It is modelled only as the split between `StartOpen` and `CompleteOpen`, with no notion of time.
- Two clicks in the same tick, before React re-renders with the busy flag set, could both pass the guard. This is a concurrency effect, and the model allows only one scheduled completion.
- Amount.RoundToThousand: floating-point error in `randomValue / 1000` is not modelled. The integer formula is exact for the safe-integer values the widget uses.
- LuckyApp.App.SetMinAmount: `Number(...)` of the input can give NaN or a non-integer. The model takes the settings to be integers.
- LuckyApp.App.SetMaxAmount: the same integer assumption as for the lower setting.
- Locale formatting of amounts and times (`toLocaleString`, `toLocaleTimeString`).
- `DENOMINATIONS` weights and `TET_COLORS` in `constants.ts`: the app logic never reads them. The denomination values appear only in `DefaultSettingsLeaveDenominations`.
