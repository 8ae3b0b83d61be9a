# Token alert bot: filter and de-duplication, in Dafny

`bot.py` polls a token-listing API, keeps the newly listed tokens that pass a
fixed filter of ten safety and quality checks, and posts an alert for each one
to a messaging channel, remembering which addresses it has already alerted.
This project models the two pieces of `TokenAnalyzer` that carry that logic:

- the filter `check_conditions` with its helpers `check_top_holders` and
  `check_socials`: the ten checks over a token record decoded from JSON, with
  Python's defaults (`totalSupply` infinite, other amounts 0), Python's
  exceptions on ill-typed values, and the `except` that turns every exception
  into a rejection;
- one poll cycle `run_check` (the indented copy at bot.py:115-127): a loop over
  the fetched batch that sends an alert for each unseen qualifying token,
  adds its address to `already_alerted` after the send, and gives up on the
  rest of the batch at the first exception.

Files:

- `py_values.dfy` (module `PyValues`): decoded JSON values and the Python
  operations the code applies to them (`dict.get`, `d[key]`, comparison with a
  number, `+`, truthiness, hashing into a set), each returning `Err` where
  Python raises. Numbers are exact reals, and `bool` counts as a number (0/1),
  as in Python.
- `top_holders.dfy` (module `TopHolders`): `check_top_holders`: the list
  comprehension, `sorted(..., reverse=True)` as an insertion sort proved to
  yield the descending permutation, the sum of the first ten, and the facts
  that make "the ten largest" precise.
- `conditions.dfy` (module `Conditions`): the ten conditions stated on their
  own (`AllTen`), the code's evaluation with Python semantics (`Evaluate`),
  and `CheckConditions`, proved to accept exactly the tokens meeting `AllTen`.
- `alert_cycle.dfy` (module `AlertCycle`): the cycle as a function `Run` over
  the batch, the lemmas about it, and the class `TokenAnalyzer` whose method
  `RunCheck` is the imperative loop over the field `alreadyAlerted`, proved
  equal to `Run`.

The fetched batch is a parameter of `RunCheck`. The Telegram send is an
oracle: `delivered[i]` tells whether sending the alert for `batch[i]` succeeds.
`RunCheck` returns the indices of the tokens it alerted and how the cycle
ended (`Completed`, or the token at which `token['address']` or the send
raised). The filter is a parameter `accepts` of `Run`, so that the cycle
lemmas hold for any filter; `RunCheck` uses `CheckConditions`.

Three points on which descriptions of the bot and `bot.py` part ways; the
model follows `bot.py`:

- A token with five holders at 10% each, and every other threshold met, is
  sometimes described as qualifying. The code sums those holders to 50, which
  is above 40, so it rejects the token
  (`Conditions.SampleTokenWithHeavyHoldersRejected`). With five holders at 5%
  the same token is accepted (`Conditions.SampleTokenAccepted`).
- A failed send is sometimes described as possibly leaving the address marked.
  In the code the `add` comes after `send_message`, so a failed send leaves
  the address unmarked (`AlertCycle.RunSendFailure`).
- Social links are sometimes described as having to be "present and
  non-empty". The code tests truthiness, so any truthy value passes. For
  string values the two agree (`Conditions.CheckSocials`).

## Model

| member | source | states |
|---|---|---|
| `Conditions.CheckConditions` | bot.py:34-69 | a token is accepted iff it is a JSON object meeting all ten conditions of `AllTen`; every exception rejects |
| `Conditions.EvaluateMeansAllTen` | bot.py:37-65 | the evaluation, with its defaults and the exceptions it can raise, yields True exactly when all ten conditions hold |
| `Conditions.EvaluateSound` | bot.py:37-65 | an evaluation that yields True has met every one of the ten conditions |
| `Conditions.EvaluateComplete` | bot.py:37-65 | a token meeting all ten conditions evaluates to True without raising |
| `Conditions.LiquidityLockCheck` | bot.py:40-50 | with both lock and burn present their sum must reach 99; with one, that one; with neither the check passes; a present value that is not a number raises |
| `Conditions.CheckSocials` | bot.py:97-98 | passes iff `socials` is a dict whose `twitter` and `website` are both present and truthy; for strings, both non-empty; raises if `socials` is not a dict |
| `Conditions.FailsClosed` | bot.py:67-69 | when evaluation raises, the token is rejected and some condition fails |
| `Conditions.NonObjectRejected` | bot.py:37-69 | a token that is not a dict raises AttributeError and is rejected |
| `Conditions.MissingSupplyRejected` | bot.py:37-53 | a token without `totalSupply` is rejected, since the default is infinite |
| `Conditions.MissingCountRejected` | bot.py:38-60 | a missing `marketCap`, `makersCount`, `holdersCount` or `volume24h` defaults to 0 and rejects |
| `Conditions.MissingLiquidityRejected` | bot.py:39-55 | a missing `liquidity`, or one without `usd`, defaults to 0 and rejects |
| `Conditions.MissingPairCreatedRejected` | bot.py:61 | an absent or null `pairCreatedAt` rejects |
| `Conditions.MalformedHoldersRejected` | bot.py:57 | a holder without a numeric `percentage` rejects the whole token |
| `Conditions.QualifyingIsFormattable` | bot.py:100-113 | for an accepted token, the amounts `format_alert` formats are numbers and `socials` is a dict |
| `Conditions.SampleTokenAccepted` | bot.py:52-65 | a token meeting every threshold, with five holders at 5%, is accepted |
| `Conditions.SampleTokenWithHeavyHoldersRejected` | bot.py:52-65 | the same token with five holders at 10% (sum 50) is rejected |
| `Conditions.CheckConditionsAsWritten` | bot.py:57-71 | as written, `self.check_top_holders` is not an attribute, the handler catches the AttributeError, and every token is rejected |
| `Conditions.AsWrittenRejectsQualifyingToken` | bot.py:57-71 | a token the intended filter accepts is rejected as written |
| `TopHolders.SortDesc` | bot.py:89-92 | `sorted(..., reverse=True)` yields a descending permutation of its input |
| `TopHolders.HolderPercentages` | bot.py:89-90 | a `holders` value that is null, a number or a bool cannot be iterated and raises |
| `TopHolders.Numbers` | bot.py:89-92 | sorting and summing succeed iff every percentage is a number |
| `TopHolders.CheckTopHolders` | bot.py:87-95 | the check passes only when every holder yields a numeric percentage |
| `TopHolders.CheckHolderRecords` | bot.py:87-93 | a list of holder records, each a dict with a numeric `percentage` and any other keys, passes iff its ten largest percentages sum to at most 40 |
| `TopHolders.CheckWellFormedHolders` | bot.py:87-93 | the same for records whose only key is `percentage` |
| `TopHolders.EmptyHoldersPass` | bot.py:87-93 | an empty holders list passes with sum 0 |
| `TopHolders.TopTenSumOrderIndependent` | bot.py:89-92 | lists with the same percentages in any order have the same top ten and the same sum |
| `TopHolders.TopTenAreLargest` | bot.py:89-92 | the top ten holds ten percentages (all of them when fewer), drawn from the input, none smaller than one left out |
| `TopHolders.FewHoldersSumAll` | bot.py:89-92 | with at most ten holders the check sums all of them |
| `TopHolders.EachHolderWithinBound` | bot.py:93 | with non-negative percentages, a passing list has no holder above 40 |
| `TopHolders.MalformedHolderRejected` | bot.py:90-95 | a holder that is not a dict with a numeric `percentage` makes the check fail |
| `TopHolders.UniformHolders` | bot.py:87-93 | at most ten holders with the same percentage `x` pass iff their number times `x` is at most 40 |
| `TopHolders.TenHoldersAtFivePercentFail` | bot.py:87-93 | ten holders at 5% (sum 50) fail |
| `TopHolders.TenHoldersAtThreePercentPass` | bot.py:87-93 | ten holders at 3% (sum 30) pass |
| `PyValues.HashKey` | bot.py:118 | strings, numbers, bools and null are set keys (True as 1, False as 0); lists and dicts raise TypeError |
| `PyValues.Add` | bot.py:46 | two numbers add; the sum of a number and a non-number is not a number |
| `AlertCycle.Address` | bot.py:118 | `token['address']` succeeds and hashes iff the token is a dict with an address that is not a list or a dict |
| `AlertCycle.RunGrows` | bot.py:117-125 | the alerted set only grows |
| `AlertCycle.RunSentQualify` | bot.py:117-125 | every alert is for a token whose address was not alerted before, that passes the filter and whose send succeeded |
| `AlertCycle.RunSentIncreasing` | bot.py:117 | the alerts come in batch order |
| `AlertCycle.RunAlertedExactly` | bot.py:120-125 | afterwards the alerted set is the old set plus exactly the addresses alerted |
| `AlertCycle.RunSentDistinct` | bot.py:118-125 | no address is alerted twice in one cycle, even if it occurs twice in the batch |
| `AlertCycle.RunCompletedCoversBatch` | bot.py:117-125 | a cycle that ran to the end saw an address on every token and marked every qualifying one |
| `AlertCycle.RunSendFailure` | bot.py:120-127 | a failed send stops the cycle at a qualifying token, whose address stays unmarked, after all the cycle's alerts |
| `AlertCycle.RunAddressFailure` | bot.py:116-127 | a token without a usable address stops the cycle after all the cycle's alerts |
| `AlertCycle.RunIgnoresRest` | bot.py:116-127 | once the cycle has stopped, the tokens after the failing one change nothing |
| `AlertCycle.AsWrittenCycleSendsNothing` | bot.py:115-125 | with the filter as written, a cycle sends nothing and marks nothing |
| `AlertCycle.ConsecutiveCyclesAlertOnce` | bot.py:118-125 | no address is alerted in two consecutive cycles |
| `AlertCycle.RepeatedTokenAlertedOnce` | bot.py:118-125 | for any two consecutive batches, a qualifying token of a first cycle that ran to the end has its address alerted before or in that cycle, and not again in the second |
| `AlertCycle.TokenAnalyzer.constructor` | bot.py:17-20 | the analyzer starts with an empty alerted set |
| `AlertCycle.TokenAnalyzer.RunCheck` | bot.py:115-127 | the loop leaves the alerted set, the alerts and the ending that `Run` gives; the set only grows, every alert is for an unseen qualifying token, and alerts come in batch order |
| `AlertCycle.TwoCycles` | bot.py:132 | two calls of `RunCheck` on one analyzer never alert the same address twice |

## Left out

- `fetch_token_data` (bot.py:22-32): HTTP and JSON decoding. The fetched batch is a parameter of `RunCheck`, a sequence of decoded values. The case where `tokenProfiles` is not a list is not modelled.
- `Bot.send_message` (bot.py:120-124): a network call. Its outcome is the `delivered` oracle, and the message content is not modelled.
- `format_alert` (bot.py:100-113): the text depends on Python's float formatting and on emoji literals. `Conditions.QualifyingIsFormattable` shows only that the amounts it formats are numbers and that `socials` is a dict.
- The module-level `run_check` (bot.py:71-85): a duplicate of the indented one. It differs in passing `disable_web_page_preview=True` to the send (bot.py:81) and in its logged message (bot.py:85 against bot.py:127).
- Configuration from the environment (bot.py:8, bot.py:18-19), logging, and the scheduler (bot.py:129-133). As written, line 132 also fails, because `analyzer.run_check` is not an attribute of the class. That is process plumbing and is not modelled.
- TopHolders.TopTenSum: it sums exactly, while Python adds floats with rounding. The model can differ from the code when a sum lies within rounding error of 40.
- Conditions.LiquidityLockCheck: `locked + burned` is an exact sum, not a float sum. The model can differ at the boundary 99.
- PyValues.Json: Python's json module also accepts `NaN` and `Infinity` literals and keeps integers separate from floats. The model has exact reals only. Comparisons between Python's int and float are exact, so the thresholds are unaffected. A JSON integer too large for a float (a 400-digit `marketCap`, say) passes its threshold, and `format(n, ',.0f')` at bot.py:105 then raises OverflowError. The model does not capture that failure of `format_alert`; in the cycle it is one of the failures the `delivered` oracle stands for.

## Findings

| source | as written | input that shows it | evidently intended | confidence | as-written member | corrected member |
|---|---|---|---|---|---|---|
| bot.py:71 | `def run_check(self):` starts at column 0, which closes the class after line 69. `check_top_holders` and `check_socials` (bot.py:87-98) become local functions of that module-level function, so `self.check_top_holders` at bot.py:57 raises AttributeError. The handler at bot.py:67-69 catches it, and `check_conditions` rejects every token. | `SampleToken(Holders(Repeat(5.0, 5)))`: a token meeting every threshold | the helpers and the indented `run_check` are methods of `TokenAnalyzer`, and the filter is the conjunction of the ten checks | not executed | `Conditions.CheckConditionsAsWritten` | `Conditions.CheckConditions` |
