# ever-greater client core, modelled in Dafny

Ever Greater is a shared-counter game: every player increments one global ticket count and
spends personal supplies, money and gold. The repository's server is a thin Express/WebSocket
shell and a set of SQL wrappers. The logic with rules worth stating lives in the browser client.
This project models that client logic:

- **ScalingNumber** (`ever-greater-client/src/classes/ScalingNumber.ts`) is an unbounded
  non-negative counter. It is kept as little-endian base-10^9 limbs in a mutable `digits` list.
  The model has a class `Scaling.ScalingNumber` with a `digits: seq<int>` field and one method
  per operation: construct, `add`, `subtract`, `isGreaterThan`, `getMostSignificantIndex`,
  `increment` and `fromString`. Each method is proved against a specification function on limb
  sequences. `toString(false)` is the pure function `Scaling.Render`. `getValue` is the integer
  abstraction function `Limbs.Value`, where value(d) = sum of d[i] * 10^(9 i). Decimal text
  (`parseInt`, `Number.prototype.toString`, `padStart`, the `/^0+/` strip) is in module `Decimal`.
- **The ticket and auth Redux slices** (`ticketSlice.ts`, `authSlice.ts`) are classes
  `TicketSlice.TicketState` and `AuthSlice.AuthState`. They have one method per reducer case.
  Each method states the whole new state: the fields its case assigns, and that every other
  field keeps its old value. The pending and rejected cases of the six auth thunks that drive
  `isLoading` have identical bodies in the source. They share one method each, and a tag names
  the thunk. `IncrementCountSucceeded` strings together the two dispatches of a successful
  increment.
- **The push-channel helpers** (`globalTicket.ts`) are pure functions. `GlobalTicket.WsUrl`
  models `getWsUrl`, using JavaScript's `startsWith` and first-occurrence `replace`.
  `GlobalTicket.Route` models the socket's message listener acting on one parsed frame.

What the proofs establish about the limbs:

- Value is preserved exactly by `add` and `subtract`, which have no carry or borrow.
- `increment` adds exactly one.
- `fromString` produces ceil(len/9) normal limbs that spell the string's value.
- On normal limbs, `toString(false)` is the canonical decimal text of the value. So printing
  after parsing gives the input with its leading zeros removed.
- On normal limbs, `isGreaterThan` is the value order whenever `other` has at least one limb.

The source's quirks are proved as stated:

- Limbs leave [0, 10^9) after `add` and `increment`, and can go negative after `subtract`.
- A non-zero single-limb number is not greater than an empty one.
- Because of that, `0 - 5` passes the guard of `subtract` and yields the limb -5.
- Once `add` has left a limb of 10^9 or more, the guard misjudges again: [750000000] +
  [750000000] gives [1500000000], which is larger than [0, 1] yet not greater by
  `isGreaterThan`, so [0, 1] minus it passes the guard and stands for a negative value.

The test at `ever-greater-client/src/classes/ScalingNumber.test.ts:16-22`
expects a value the code does not produce. The code groups digits from the right, so
"123456789012345678" becomes the limbs [12345678, 123456789]. The model follows the code.

## Model

| member | source | states |
|---|---|---|
| `Scaling.ScalingNumber.Create` | ever-greater-client/src/classes/ScalingNumber.ts:4-21 | a negative value fails with "Value must be a non-negative integer"; 0 gives no limbs; 0 < v < 10^9 gives [v]; v >= 10^9 gives at least two normal limbs with a non-zero top limb whose value is v |
| `Scaling.CreateThenRender` | ever-greater-client/src/classes/ScalingNumber.ts:4-21 | the limbs the constructor builds from v print, through `toString(false)`, as the decimal text of v |
| `Scaling.ScalingNumber.Zero` | ever-greater-client/src/classes/ScalingNumber.ts:2-4 | `new ScalingNumber()` starts with empty limbs |
| `Scaling.LimbsOfExpansion` | ever-greater-client/src/classes/ScalingNumber.ts:12-17 | the base-10^9 expansion is normal, empty exactly for 0, has a non-zero top limb and stands for v |
| `Scaling.SplitLimbs` | ever-greater-client/src/classes/ScalingNumber.ts:13-17 | the constructor's push/divide loop computes exactly that expansion |
| `Scaling.ScalingNumber.Add` | ever-greater-client/src/classes/ScalingNumber.ts:24-35 | a fresh number as long as the longer operand, limb i = this[i] + other[i] (missing limbs read 0), value = sum of the values, operands untouched |
| `Scaling.AddLimbsValue` | ever-greater-client/src/classes/ScalingNumber.ts:28-32 | carry-free limb-wise addition adds the values |
| `Scaling.AddLimbsRange` | ever-greater-client/src/classes/ScalingNumber.ts:28-32 | on normal operands every limb of the sum lies in [0, 2*10^9 - 2], and [10^9 - 1] + [1] gives the non-normal limb 10^9 |
| `Scaling.ScalingNumber.Subtract` | ever-greater-client/src/classes/ScalingNumber.ts:37-51 | fails with "Cannot subtract a larger number from a smaller number" exactly when other.isGreaterThan(this); otherwise a fresh number with limb i = this[i] - other[i] and value = difference |
| `Scaling.SubLimbsValue` | ever-greater-client/src/classes/ScalingNumber.ts:44-48 | borrow-free limb-wise subtraction subtracts the values |
| `Scaling.SubtractGuard` | ever-greater-client/src/classes/ScalingNumber.ts:37-51 | when the guard passes on normal operands and this has limbs, the result's value is non-negative; from empty limbs 0 - 5 passes the guard and gives the limb -5 |
| `Scaling.SubtractGuardAfterAdd` | ever-greater-client/src/classes/ScalingNumber.ts:37-51 | once `add` leaves the limb 1500000000, that number is larger than [0, 1] yet not greater by `isGreaterThan`, and [0, 1] minus it passes the guard with a negative value |
| `Scaling.ScalingNumber.IsGreaterThan` | ever-greater-client/src/classes/ScalingNumber.ts:53-66 | returns the index comparison, or the first differing limb read scanning down, reading missing limbs as undefined |
| `Scaling.ScalingNumber.GetMostSignificantIndex` | ever-greater-client/src/classes/ScalingNumber.ts:68-75 | the scan returns the most significant index |
| `Scaling.MostSignificantIndex` | ever-greater-client/src/classes/ScalingNumber.ts:68-75 | the index is a limb index (0 for no limbs), non-zero there unless it is 0, and every limb above it is zero |
| `Scaling.GreaterThanIrreflexive` | ever-greater-client/src/classes/ScalingNumber.ts:53-66 | no number is greater than itself |
| `Scaling.GreaterThanIsValueOrder` | ever-greater-client/src/classes/ScalingNumber.ts:53-66 | for normal limbs with `other` non-empty, isGreaterThan holds exactly when value(this) > value(other) |
| `Scaling.GreaterThanEmptyOther` | ever-greater-client/src/classes/ScalingNumber.ts:60-63 | against empty limbs the answer is true exactly when a limb above limb 0 is non-zero, so [5] is not greater than zero |
| `Scaling.ScalingNumber.Increment` | ever-greater-client/src/classes/ScalingNumber.ts:77-83 | empty limbs become [1]; otherwise only limb 0 grows by one; the value grows by exactly one |
| `Scaling.IncrementedValue` | ever-greater-client/src/classes/ScalingNumber.ts:77-83 | increment adds one to the value, keeps the length (1 from empty) and leaves every limb above 0 unchanged |
| `Scaling.IncrementedNormal` | ever-greater-client/src/classes/ScalingNumber.ts:81 | on normal non-empty limbs the result stays normal exactly when limb 0 is below 10^9 - 1 (no carry) |
| `Scaling.ScalingNumber.FromString` | ever-greater-client/src/classes/ScalingNumber.ts:109-120 | a string that is not one or more digits fails with the source's message and leaves the limbs unchanged; otherwise the old limbs are discarded and replaced by the nine-digit groups from the right |
| `Scaling.GroupsLength` | ever-greater-client/src/classes/ScalingNumber.ts:115-119 | a digit string of length n gives ceil(n/9) limbs |
| `Scaling.GroupsNormal` | ever-greater-client/src/classes/ScalingNumber.ts:115-119 | every limb parsed from a digit string lies in [0, 999999999] |
| `Scaling.GroupsAt` | ever-greater-client/src/classes/ScalingNumber.ts:116-118 | limb i is the value of characters [max(0, n - 9(i+1)), n - 9i) |
| `Scaling.GroupsValue` | ever-greater-client/src/classes/ScalingNumber.ts:115-119 | the limbs stand for the number the string spells, leading zeros included |
| `Scaling.RenderIsDecimal` | ever-greater-client/src/classes/ScalingNumber.ts:85-106 | toString(false) on normal limbs is the decimal text of the value without leading zeros, "0" for empty limbs |
| `Scaling.FromStringThenRender` | ever-greater-client/src/classes/ScalingNumber.ts:100-119 | toString(false) after fromString(s) is s with leading zeros stripped, or "0" when s is all zeros |
| `Limbs.ValueBounds` | ever-greater-client/src/classes/ScalingNumber.ts:122-127 | normal limbs of length n stand for a value in [0, 10^(9n)) |
| `Decimal.NatToString` | ever-greater-client/src/classes/ScalingNumber.ts:103 | an integer limb's text is a digit string spelling it, starting with '0' only for "0" |
| `Decimal.CanonicalIsNatToString` | ever-greater-client/src/classes/ScalingNumber.ts:105 | stripping /^0+/ from a digit string, or "0" when nothing is left, gives the canonical text of its value |
| `TicketSlice.TicketState.constructor` | ever-greater-client/src/store/slices/ticketSlice.ts:11-15 | initial state: count 0, isLoading false, error null |
| `TicketSlice.TicketState.UpdateCount` | ever-greater-client/src/store/slices/ticketSlice.ts:52-55 | count := payload and error := null; isLoading unchanged |
| `TicketSlice.TicketState.ClearError` | ever-greater-client/src/store/slices/ticketSlice.ts:56-58 | error := null; count and isLoading unchanged |
| `TicketSlice.TicketState.Pending` | ever-greater-client/src/store/slices/ticketSlice.ts:63-91 | pending of fetchCount or incrementCount: isLoading true, error null, count kept |
| `TicketSlice.TicketState.Fulfilled` | ever-greater-client/src/store/slices/ticketSlice.ts:67-87 | fulfilled of either thunk: isLoading false, count := payload, error null |
| `TicketSlice.TicketState.Rejected` | ever-greater-client/src/store/slices/ticketSlice.ts:72-91 | rejected of either thunk: isLoading false, error := payload, count never changes |
| `TicketSlice.IncrementCountSucceeded` | ever-greater-client/src/store/slices/ticketSlice.ts:36-39 | a successful increment sets the user's supplies in the auth slice (only if a user exists), then fulfils with the count |
| `AuthSlice.AuthState.constructor` | ever-greater-client/src/store/slices/authSlice.ts:12-17 | initial state: user null, isCheckingAuth true, isLoading false, error null |
| `AuthSlice.AuthState.ClearError` | ever-greater-client/src/store/slices/authSlice.ts:130-132 | only error changes, to null |
| `AuthSlice.AuthState.UpdateSupplies` | ever-greater-client/src/store/slices/authSlice.ts:133-137 | overwrites only the user's printer_supplies; no-op without a user; other state unchanged |
| `AuthSlice.AuthState.UpdateMoney` | ever-greater-client/src/store/slices/authSlice.ts:138-142 | overwrites only the user's money; no-op without a user; other state unchanged |
| `AuthSlice.AuthState.CheckAuthPending` | ever-greater-client/src/store/slices/authSlice.ts:147-150 | isCheckingAuth true, error null; user and isLoading unchanged |
| `AuthSlice.AuthState.CheckAuthFulfilled` | ever-greater-client/src/store/slices/authSlice.ts:151-155 | isCheckingAuth false, user := payload (possibly null), error null; isLoading unchanged |
| `AuthSlice.AuthState.CheckAuthRejected` | ever-greater-client/src/store/slices/authSlice.ts:156-160 | isCheckingAuth false, user null, error := payload; isLoading unchanged |
| `AuthSlice.AuthState.Pending` | ever-greater-client/src/store/slices/authSlice.ts:163-265 | pending of login, signup, logout, buySupplies, buyGold or buyAutoprinter: isLoading true, error null; user and isCheckingAuth unchanged |
| `AuthSlice.AuthState.Rejected` | ever-greater-client/src/store/slices/authSlice.ts:173-265 | rejected of any of those six: isLoading false, error := payload; user and isCheckingAuth unchanged |
| `AuthSlice.AuthState.LoginFulfilled` | ever-greater-client/src/store/slices/authSlice.ts:168-172 | isLoading false, user := payload, error null; isCheckingAuth unchanged |
| `AuthSlice.AuthState.SignupFulfilled` | ever-greater-client/src/store/slices/authSlice.ts:184-188 | isLoading false, user := payload, error null; isCheckingAuth unchanged |
| `AuthSlice.AuthState.LogoutFulfilled` | ever-greater-client/src/store/slices/authSlice.ts:200-204 | isLoading false, user null, error null; isCheckingAuth unchanged |
| `AuthSlice.AuthState.BuySuppliesFulfilled` | ever-greater-client/src/store/slices/authSlice.ts:216-223 | isLoading false, error null; an existing user gets exactly money and printer_supplies from the payload |
| `AuthSlice.AuthState.BuyGoldFulfilled` | ever-greater-client/src/store/slices/authSlice.ts:235-242 | isLoading false, error null; an existing user gets exactly money and gold from the payload |
| `AuthSlice.AuthState.BuyAutoprinterFulfilled` | ever-greater-client/src/store/slices/authSlice.ts:254-261 | isLoading false, error null; an existing user gets exactly gold and autoprinters from the payload |
| `GlobalTicket.FindFrom` | ever-greater-client/src/api/globalTicket.ts:30-32 | the position `replace` acts on is an occurrence, and no earlier position is one; none is found only when there is no occurrence |
| `GlobalTicket.ReplacePrefix` | ever-greater-client/src/api/globalTicket.ts:30 | replacing a prefix by "" removes exactly that prefix |
| `GlobalTicket.WsUrlSecure` | ever-greater-client/src/api/globalTicket.ts:29-31 | a base starting with "https://" maps to "wss://" + the rest + "/ws" |
| `GlobalTicket.WsUrlPlain` | ever-greater-client/src/api/globalTicket.ts:32 | any other base maps to "ws://" + the base with its first "http://" removed + "/ws" |
| `GlobalTicket.WsUrlOther` | ever-greater-client/src/api/globalTicket.ts:32 | a base without "http://" is kept whole between "ws://" and "/ws" |
| `GlobalTicket.WsUrlShape` | ever-greater-client/src/api/globalTicket.ts:28-33 | every URL starts with "ws://" or "wss://" and ends with "/ws" |
| `GlobalTicket.DefaultWsUrl` | ever-greater-client/src/api/globalTicket.ts:1-2 | with REACT_APP_API_BASE unset or empty the URL is "ws://localhost:4000/ws" |
| `GlobalTicket.Route` | ever-greater-client/src/api/globalTicket.ts:90-106 | onCount(n) fires exactly when the frame's count is the number n; onUserUpdate(u) exactly when the callback was supplied and user_update is the truthy value u; count first; unparsable frames fire nothing |
| `GlobalTicket.RouteBoth` | ever-greater-client/src/api/globalTicket.ts:95-102 | one frame with both a number count and a user update fires both callbacks, count first |

## Left out

- Scaling.ScalingNumber.Create: takes an integer. The "must be a finite number" error and the non-integer branch of the "non-negative integer" error need floating-point input and are not modelled. `Math.log10(value) >= 9` is modelled as value >= 10^9. The source's throwing constructor becomes a static method that returns a `Result`.
- Limbs.Value: the exact integer value. `getValue` sums doubles and loses precision above 2^53. The limb arithmetic (`%`, `Math.floor`, `+`, `-`) is exact only up to that bound, and the model treats it as exact everywhere.
- `toString(true)`, the scientific form, uses `Math.log10`, `Math.pow` and `Math.round` on doubles and is not modelled.
- `getDigits` returns a copy of the array. Sequences are values in the model, so the copy and the original cannot alias. `ScalingNumber.GetDigits` returns the limbs and has no further contract.
- `Decimal.IntToString` gives the plain decimal form of an integer. JavaScript switches to exponent notation at 10^21, which limbs never reach in the source's exact range.
- The async thunk bodies and all of `api/auth.ts` are left out. They are HTTP calls and error-message wrapping. Their outcomes reach the slices as pending, fulfilled and rejected actions with a payload. A rejected payload is taken to be the string passed to `rejectWithValue`.
- `fetchGlobalCount`, `incrementGlobalCount`, socket creation, the open/close/error listeners and the `localStorage` authentication message in `globalTicket.ts` are network and browser I/O.
- GlobalTicket.Route: JSON numbers are integers here, and `JSON.parse` itself is not modelled (a frame arrives parsed, or as `None` when parsing throws). A callback that throws would make the listener skip the second callback; callbacks are assumed not to throw.
- `websocketMiddleware.ts`, `errorSlice`, the React components, `App`, `index.tsx` and the store setup are UI and connection plumbing.
- The server (`ever-greater-server/src/index.js`, `db.js`) is network routing around one in-memory counter plus SQL wrappers. It is not part of this model.
