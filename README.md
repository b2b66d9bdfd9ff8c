# TákemLink loyalty ledger and alert store, in Dafny

This project models the in-memory core of the TákemLink backend (`backend/index.js`), a civic
recycling platform. Citizens register, log waste deposits that earn EcoPuntos and raise their
level, and redeem points for catalogue rewards. Institutions receive alerts about zones. The
server keeps everything in module-level arrays that its request handlers update in place. The
model keeps that shape: two classes whose `seq` fields are those arrays, and whose methods are
the mutating handlers. The read-only handlers, the rate table, the tier table and the alert rule
are pure functions with lemmas.

Files, one module each:

- `wrappers.dfy`: `Option` and `Result`.
- `seqs.dfy`: first-match lookup (`find`, `findIndex`, `indexOf`), order-preserving `filter` (`Filter`, `FilterWhen`), subsequences, and the first-match edits `RemoveFirst` (the `splice` used by alert deletion) and `UpdateFirst` (the in-place update used by mark-read).
- `text.dfy`: JavaScript `trim`, truthiness of string values, and decimal rendering of integers.
- `tiers.dfy`: the ordered level names, the tier thresholds, the level if-chain and the material rate table.
- `rewards.dfy`: the reward record, the starting catalogue and the listing filter.
- `ledger.dfy`: users, deposit records and redemptions; `LedgerStore` with registration, deposit and redemption.
- `alerts.dfy`: alerts, their configuration and the automatic rule; `AlertStore` with create, mark-read, delete, configuration update and automatic generation.

Identifiers (`Date.now().toString()`), timestamps (`new Date()`) and the random `ranking` are
parameters supplied by the caller. Timestamps are integers in milliseconds.

## Model

| member | source | states |
|---|---|---|
| `Seqs.FirstIndex` | backend/index.js:307 | The result is the index of the first element with the key, or -1 exactly when no element has it. |
| `Seqs.IndexOf` | backend/index.js:520 | `indexOf`: -1 exactly when the value is absent; otherwise it holds the value and is its first occurrence. |
| `Seqs.Filter` | backend/index.js:515 | Every survivor comes from the input and satisfies the predicate; every input element satisfying it survives. Each value occurs exactly as often as in the input when it satisfies the predicate, and not at all otherwise. |
| `Seqs.FilterIsSubsequence` | backend/index.js:515 | Filtering keeps survivors in their original relative order. |
| `Seqs.SubsequenceTransitive` | backend/index.js:512-526 | A filter of a filter is still an order-preserving subsequence of the original list. |
| `Seqs.FilterWhen` | backend/index.js:360-366 | A stage applied only when its query is present: an order-preserving subsequence that keeps each value as often as the input has it when the stage is off or the predicate holds, and drops it otherwise. |
| `Seqs.FilterWhenTwice` | backend/index.js:512-526 | Two stages in a row: an order-preserving subsequence holding exactly the elements that pass both, each with its input multiplicity. |
| `Seqs.FirstIndexTail` | backend/index.js:427 | Past a head without the key, the first match is the tail's first match shifted by one, or none when the tail has none. |
| `Seqs.RemoveFirst` | backend/index.js:427-429 | Removing the first match shortens the sequence by one exactly when some element has the key. |
| `Seqs.RemoveFirstAt` | backend/index.js:427-429 | `splice(findIndex(...), 1)`: the result is the input with exactly the position `FirstIndex` returns cut out, the rest in order; unchanged when nothing matches. |
| `Seqs.UpdateFirst` | backend/index.js:412-414 | Same length; every element is unchanged or, when it has the key, is the update of itself. |
| `Seqs.UpdateFirstAt` | backend/index.js:412-414 | Updating the first match changes exactly the position `FirstIndex` returns, and nothing when no element has the key. |
| `Seqs.UpdateFirstIdempotent` | backend/index.js:410-418 | An update that keeps the key and is idempotent can be applied to the first match twice with the effect of once. |
| `Text.LeadingSpace` | backend/index.js:155 | Counts the leading whitespace; the next character, if any, is not whitespace. |
| `Text.TrailingSpace` | backend/index.js:155 | Counts the trailing whitespace; the character before it, if any, is not whitespace. |
| `Text.Trim` | backend/index.js:155-158 | The result is the contiguous middle of the input, only whitespace is dropped around it, and it neither starts nor ends with whitespace. |
| `Text.TrimIdempotent` | backend/index.js:155-158 | Trimming a trimmed value changes nothing. |
| `Text.TrimAllSpace` | backend/index.js:146-158 | A whitespace-only value, which passes the truthiness check, is stored as the empty string. |
| `Text.NatString` | backend/index.js:490 | The digits of a natural number, without leading zero; reading them back gives the number. |
| `Text.DecimalString` | backend/index.js:490 | A template literal's rendering of an integer: a leading minus sign exactly for negatives, no leading zero, and reading it back gives the integer. |
| `Tiers.LevelRank` | backend/index.js:519-523 | A level's rank is its position in the ordered tier array, and -1 exactly when the name is not a tier. |
| `Tiers.TierFrom` | backend/index.js:311-314 | Finds the highest threshold at or below the point total, searching down from a given tier. |
| `Tiers.TierIndex` | backend/index.js:311-314 | The tier index satisfies `Umbrales[i] <= p < Umbrales[i+1]`; below 500 it is the first tier. |
| `Tiers.UpgradeLevel` | backend/index.js:311-314 | Below 500 the level is kept; from 500 up it is one of the four tier names above "novato". Its agreement with the tier table is `Tiers.UpgradeMatchesTierTable`. |
| `Tiers.UpgradeMatchesTierTable` | backend/index.js:311-314 | The deposit if-chain sets the tier of the total when the total is at least 500, and keeps the current level below that. So it agrees with the ordered tier array at line 519. |
| `Tiers.RankOfTier` | backend/index.js:519 | The rank of the tier name for a total equals the tier index of that total. |
| `Tiers.RankedAtMostNovato` | backend/index.js:519-524 | A level whose `indexOf` rank is at most that of "novato" is not one of the higher tier names. |
| `Tiers.TierMonotone` | backend/index.js:311-314 | More points never give a lower tier. |
| `Tiers.TierBoundaries` | backend/index.js:311-314 | The tiers at 0/499, 500/1499, 1500/2999, 3000/4999 and 5000. |
| `Tiers.Rate` | backend/index.js:300-304 | The rate is 0 exactly for materials that are not in the table. |
| `Tiers.RateTable` | backend/index.js:300-304 | plastico, vidrio and carton earn 10; organico 5; metal 12; electronico 15; any other type 0. |
| `Tiers.DepositPoints` | backend/index.js:304 | Points are never negative for a non-negative quantity, and are 0 for an unknown material. |
| `Rewards.FindReward` | backend/index.js:540 | Returns the index of a reward with the id, and no earlier reward has it; -1 exactly when none has it. |
| `Rewards.ListRewards` | backend/index.js:508-533 | The result is an order-preserving subsequence of the catalogue. It holds exactly the rewards that pass the category filter (given and not "todas") and the level filter (given, and the user's `indexOf` rank is at least the requirement's), each as often as in the catalogue. |
| `Rewards.UnknownRequirementAlwaysListed` | backend/index.js:519-524 | A reward whose required level is not a tier name passes every level filter. |
| `Rewards.UnknownLevelSeesOnlyUnknownRequirements` | backend/index.js:519-524 | A user level that is not a tier name sees exactly the rewards whose requirement is not a tier name either. |
| `Rewards.HigherLevelSeesMore` | backend/index.js:518-525 | Every reward listed for a lower-ranked level is also listed for a higher-ranked one. |
| `Rewards.NovatoExcludesHigherTiers` | backend/index.js:518-525 | A "novato" listing never contains a reward that requires "guardián" or a higher tier. |
| `Ledger.FindUser` | backend/index.js:307 | Returns the index of a user with the id, and no earlier user has it; -1 exactly when none has it. |
| `Ledger.Credited` | backend/index.js:309-314 | The balance grows by exactly the points and only the balance and level change. A credited total of 500 or more always leaves the level matching the balance. Its effect on a matching level is `Ledger.CreditNeverDemotes`. |
| `Ledger.Debited` | backend/index.js:555 | The balance drops by exactly the price and nothing else changes, the level included (`Ledger.DebitLeavesLevelStale`). |
| `Ledger.CreditNeverDemotes` | backend/index.js:309-314 | A non-negative deposit on a user whose level matches the balance adds exactly the points. The level then still matches, and its rank does not drop. |
| `Ledger.CreditKeepsInvariants` | backend/index.js:307-314 | Crediting one user with non-negative points keeps every balance in the list non-negative and every level matching its balance. |
| `Ledger.CreditBelowThresholdKeepsLevel` | backend/index.js:311-314 | When the new total is below 500, the deposit leaves the level as it was. |
| `Ledger.DebitLeavesLevelStale` | backend/index.js:555-556 | A redemption leaves the level as it was. When it crosses a tier boundary downward, the level no longer matches the balance. |
| `Ledger.CreditAfterStaleLevelDemotes` | backend/index.js:309-314 | Once the stored level is above the tier of the balance, a deposit reaching 500 lowers the level. |
| `Ledger.NegativeQuantityLowersBalance` | backend/index.js:304-309 | A negative quantity of a known material is accepted and lowers the balance. |
| `Ledger.RedeemCheck` | backend/index.js:542-552 | No error exactly when the user and reward exist, the balance covers the price and stock is positive. NotFound exactly when either id is unknown. InsufficientPoints exactly when both exist and the balance is below the price. OutOfStock exactly when both exist, the balance covers the price and stock is zero or less. So the balance is checked before the stock. |
| `Ledger.SecondRedeemOfLastUnit` | backend/index.js:546-556 | With a balance equal to the price and one unit left, the first redemption passes. A second one fails for insufficient points, or for stock when the reward is free. |
| `Ledger.CanjesDe` | backend/index.js:583 | The result is an order-preserving subsequence of the redemptions, made of exactly that user's redemptions, each as often as in the full list. |
| `Ledger.LedgerStore.constructor` | backend/index.js:19-138 | Starts with no users, no deposit records and no redemptions, and with the five-reward catalogue. All balances and stocks are non-negative and all levels match. |
| `Ledger.LedgerStore.GetUser` | backend/index.js:178-184 | Returns none exactly when no user has the id; otherwise the user at the index `FindUser` returns, which is the first one with the id. |
| `Ledger.LedgerStore.Register` | backend/index.js:141-176 | Fails, with all four field names and no change, exactly when a field is absent or empty. Otherwise it appends one user with trimmed fields, 0 points and level "novato". Non-negative balances and matching levels are preserved. |
| `Ledger.LedgerStore.Deposit` | backend/index.js:298-333 | Always appends one record with points equal to rate times quantity. A known user gets exactly those points and the level chain, and no other user changes. An unknown user changes nothing and the reply shows 0 and "novato". Non-negative quantities preserve non-negative balances and matching levels. |
| `Ledger.LedgerStore.Redeem` | backend/index.js:535-579 | Errors follow `RedeemCheck` and change nothing. On success the balance drops by the price, stock drops by one and one pending redemption is appended. The reply carries the new balance. The level and every other user and reward are unchanged. Non-negative balances and stocks are preserved. |
| `Alerts.MergeLaws` | backend/index.js:450-458 | An empty update is the identity, repeating an update changes nothing more, and two updates compose with later fields winning. |
| `Alerts.Merge` | backend/index.js:452 | `{ ...configuracion, ...body }` on the four fields: every field the update carries wins, and an empty update keeps the configuration. Identity, idempotence and composition are `Alerts.MergeLaws`. |
| `Alerts.FindAlert` | backend/index.js:427 | Returns the index of an alert with the id, and no earlier alert has it; -1 exactly when none has it. |
| `Alerts.ListAlerts` | backend/index.js:354-373 | The result is an order-preserving subsequence of exactly the alerts that match the priority (when given and non-empty) and the read flag (`leida == (query == "true")` whenever the query is present), each as often as in the store. |
| `Alerts.ReadQueryOtherThanTrue` | backend/index.js:364-366 | A read query other than "true", including "false" and the empty string, lists only unread alerts. |
| `Alerts.MarkAsRead` | backend/index.js:414 | The same alert with its read flag set and every other field kept. |
| `Alerts.MarkReadTwice` | backend/index.js:410-418 | Marking the same id read twice gives the same list as once. |
| `Alerts.FirstMatch` | backend/index.js:467-484 | No cause exactly when no rule's condition holds. A returned cause belongs to a rule whose condition holds and no earlier rule's condition holds. |
| `Alerts.Classify` | backend/index.js:467-484 | Critical exactly when the waste exceeds `umbralCritico`. Warning only strictly between the two thresholds. Low participation only below 10 participants. No alert exactly when neither threshold is exceeded and there are at least 10 participants. Its equality with the rule table is `Alerts.ClassifyIsFirstMatchingRule`. |
| `Alerts.ClassifyIsFirstMatchingRule` | backend/index.js:467-484 | The if-chain is first-match evaluation of the rule table: critical above `umbralCritico`, warning above `umbralAdvertencia`, low participation below 10. |
| `Alerts.WarningUnreachableWhenInverted` | backend/index.js:467-476 | When the warning threshold is configured at or above the critical one, the warning rule never fires. |
| `Alerts.SeverityMonotone` | backend/index.js:467-484 | More waste or fewer participants never give a less severe alert. |
| `Alerts.AutoAlert` | backend/index.js:486-497 | The generated alert is unread and carries the zone, identifier, date and metrics given. Its priority is "alta" exactly for the critical rule, and its type is "baja_participacion" exactly for the low-participation rule. |
| `Alerts.AlertStore.constructor` | backend/index.js:22-67 | Starts with the three sample alerts and thresholds 1000/500, email notifications on and push notifications off. |
| `Alerts.AlertStore.Create` | backend/index.js:375-408 | Appends exactly one alert with the given fields, unread. |
| `Alerts.AlertStore.MarkRead` | backend/index.js:410-423 | Returns 404 with no change exactly when the id is unknown. Otherwise it sets the read flag of exactly the alert `find` returns (`UpdateFirst` with `AlertId`) and returns it. |
| `Alerts.AlertStore.Delete` | backend/index.js:425-438 | Returns 404 with no change exactly when the id is unknown. Otherwise it splices out exactly the alert `findIndex` returns (`RemoveFirst` with `AlertId`), so the length drops by one. |
| `Alerts.AlertStore.UpdateConfig` | backend/index.js:450-458 | The new configuration is the old one with the update's fields overwritten, and it is returned. |
| `Alerts.AlertStore.GenerateAutomatic` | backend/index.js:461-505 | When no rule fires, nothing changes. Otherwise exactly one unread alert is appended, with the firing rule's type, priority, action and title. |

## Behaviour kept as the code has it

- The level is recomputed only on deposit. A redemption leaves it unchanged, so after crossing a tier boundary downward it no longer matches the balance (`DebitLeavesLevelStale`). A later deposit reaching 500 then resets it to the tier of the lower balance, which is a demotion (`CreditAfterStaleLevelDemotes`). A deposit never lowers a level that matches the balance only when the quantity is non-negative (`CreditNeverDemotes`). With a negative quantity it can: a matching user at 1600 points ("líder verde") who deposits -20 kg of plastico ends at 1400 with level "guardián".
- A deposit for an unknown user is still logged, and the reply shows total 0 and level "novato".
- A negative weight is multiplied in, so the balance can go below zero (`NegativeQuantityLowersBalance`). `Balanced` is preserved only for non-negative quantities.
- A reward whose required level is not a tier name is listed under every level filter, because `indexOf` returns -1 for it (`UnknownRequirementAlwaysListed`).
- The balance is checked before the stock. A user who paid exactly the price for the last unit is refused a second time for insufficient points, not for stock (`SecondRedeemOfLastUnit`).
- A failed registration always lists all four required fields, not just the missing ones.
- Points are integers, because quantities are modelled as integers (see below).

## Left out

- HTTP transport: CORS, JSON body parsing, the error middlewares, the process handlers, `app.listen` and the root endpoint listing (lines 1-16, 623-703). The `try`/`catch` 500 replies are also left out, because no modelled step can throw.
- Institution registration and lookup (lines 186-267), the metrics endpoint with its random figures (lines 270-295) and the health endpoint (lines 335-351). They are outside the ledger and alert store.
- Reward create and update (lines 591-621). These spread arbitrary request fields over a record, so they are not modelled. As a result the catalogue changes only through redemption. The update endpoint could set a negative stock, which `Balanced` does not account for.
- Notification sending on alert creation (lines 394-401): it only writes to the log.
- Identifiers, timestamps and the registration ranking are caller-supplied values. ISO date formatting is not modelled.
- Absent request fields: only the registration fields and the listing queries are `Option` values, `None` when absent. Deposit, redemption, alert creation and automatic generation take every body field as a present string or integer. The model therefore does not produce what an absent field causes there: a deposit record whose `cantidad` or `tipoResiduo` is undefined (the points are still 0), or an automatic alert for an undefined waste total. In that case neither threshold fires, so with fewer than 10 participants the low-participation alert is made, its description reads "undefinedkg" and its metrics have no `residuos`. An absent identifier in a redemption matches no record, which the model reproduces with any unknown identifier.
- Request values: present ones are strings or integers. JavaScript coercion of other JSON types is not modelled. That includes `String(x)` on numbers, `Number(cantidad || 0)`, fractional or NaN quantities and thresholds, and query parameters repeated as arrays. The `residuos` list is `None` when it is not an array. In the code a NaN quantity (say `{tipoResiduo: "plastico", cantidad: "x"}`) makes `puntos` NaN, so the balance becomes NaN at line 309. After that no level branch at lines 311-314 fires again, and `NaN < recompensa.puntos` is false at line 546, so that user passes every later balance check and can redeem any reward while its stock lasts.
- Material names that are inherited object properties (such as "constructor") look up a non-number in the rate object at line 304. The model gives them rate 0. In the code the looked-up value is truthy, so `puntos` is NaN, with the same consequences as a NaN quantity above.
- Manually created alerts carry the same three-field metrics record as automatic ones, not arbitrary JSON.
- The configuration update overwrites only the four known fields. Extra fields are not modelled.
- Tiers.DepositPoints: does not model double precision. Quantities, points and balances are JavaScript doubles: above 2^53 they round, and a product such as a quantity of 1e308 of "electronico" overflows to Infinity. The model uses unbounded integers, so the points and every balance in `Ledger.LedgerStore.Deposit` and `Ledger.LedgerStore.Redeem` are exact.
- `Text.DecimalString` renders every integer in plain decimal notation. JavaScript switches to exponent notation from 1e21, and that is not modelled.
- Concurrency: Node runs each handler to completion on one thread, so the handlers are modelled as sequential method calls.
- Aliasing: records are values replaced at the index `find` returns. The source mutates the shared object, which is equivalent because no handler keeps a reference across requests.
