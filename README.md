# RSI signal Discord bot — a Dafny model of its decision logic

The bot polls an exchange for hourly mark-price klines of one symbol,
computes a 14-period RSI over the closes and posts an alert to a Discord
channel when the RSI is above 70 ("overbought") or below 30 ("oversold").
This project models the parts of `bot.py` that decide anything:

- `KlineFetcher.fetch_klines`, the bounded retry loop (`fetcher.dfy`,
  module `KlineFetching`). Each attempt's outcome comes from an oracle
  `network: nat -> Outcome`, indexed by the retry counter: a delivered JSON
  body, an HTTP error with its status, or any other exception. The model
  keeps the handlers of the source: a body whose `"result"` lookup fails
  counts as a generic exception, a 429 sleeps and counts as a failed
  attempt, another status is re-raised, and the budget runs out with
  `None` (`Exhausted`). Sleeping is recorded in a ghost trace of
  `Request(i)` and `Sleep(d)` events. The method is a `while` loop proved
  equal to the recursive specification `Attempts`, and the lemmas about
  `Attempts` state the attempt, sleep and termination properties.
- The guards of `RsiCalculator.calculate_rsi` (`rsi.dfy`). The numeric
  stage (pandas, stockstats, `int(float)`) is the parameter
  `rsi14: Json -> Option<int>`: `None` from it stands for an exception
  there, which the calculator's handler also turns into `None`.
- `DiscordBot.check_rsi_and_notify` (`bot.dfy`, module `Bot`): a pure
  function `CheckRsi` from the fetch result and the indicator to the
  messages sent and the exception that escapes, plus the same cycle as a
  method over a `Notifier` whose `sent` field is the message log.
- Python's `str(int)` used in the alert text (`decimal.dfy`), with a parser
  and a round-trip proof, so that the alert text is shown to determine the
  RSI it reports.

Points where the code behaves differently from what one might expect,
modelled as the code has them:

- A 429 on the last attempt still sleeps before the loop gives up, so an
  endpoint that always answers 429 causes `max_retries` sleeps, not one
  between each pair of attempts (`AlwaysRateLimited`).
- A non-429 HTTP error re-raised by `fetch_klines` is not caught by
  `check_rsi_and_notify`; it escapes the cycle (`Cycle.raised`).
- There is no minimum of 15 samples for the RSI: any non-empty list is
  handed to the indicator.
- There is no suppression of overlapping cycles and no deduplication of
  alerts.
- `fetch_klines` also returns a value the cycle treats as "no klines" when
  the body is `{"result": null}` (`Klines` maps that to `None`).
- With a negative `retry_after_seconds`, `time.sleep` raises inside the 429
  handler and that exception escapes `fetch_klines` (`InvalidSleep`).

## Model

| member | source | states |
|---|---|---|
| `KlineFetching.KlineFetcher.constructor` | bot.py:68-72 | The fetcher keeps symbol, interval, retry budget and retry delay as given; the defaults are SOLUSDT, "60", 3 and 60. |
| `KlineFetching.KlineFetcher.FetchKlines` | bot.py:74-97 | The loop returns exactly the result, and records exactly the trace, of the recursive specification `Attempts` from retry counter 0; a budget of zero or less makes no request and returns None. |
| `KlineFetching.Classify` | bot.py:80-95 | A delivered body with a "result" entry returns that entry; a non-429 HTTP status is re-raised; a 429 with a negative delay escapes from `time.sleep`; a 429 with a non-negative delay sleeps and retries; a body without "result" and any other exception retry without sleeping. |
| `KlineFetching.Attempts` | bot.py:76-97 | The loop from a given retry counter: no event at all once the budget is spent (then the result is the budget-exhausted None), and otherwise the first event is the request of the current attempt. |
| `KlineFetching.FetchedComesFromDelivery` | bot.py:80-83 | A payload the fetch returns is the "result" entry, unchanged, of a body delivered by some attempt within the budget. |
| `KlineFetching.AttemptsAreConsecutive` | bot.py:76-95 | The requests made are attempts 0, 1, 2, ... in order, one per attempt, and never more than the retry budget. |
| `KlineFetching.ExhaustedIffEveryAttemptRetries` | bot.py:77-97 | The fetch ends with the budget-exhausted None (`Exhausted`) exactly when every attempt within the budget is a 429 (with a non-negative delay) or a generic failure; then every attempt of the budget was made. |
| `KlineFetching.StopsAtFirstDecisive` | bot.py:80-92 | At the first attempt that does not retry, the result is its `data["result"]` unchanged, or its non-429 status re-raised; that request is the last event, so no sleep follows and no later outcome is consumed. |
| `KlineFetching.SleepsFollowRateLimits` | bot.py:85-90 | Every sleep lasts `retry_after_seconds` and directly follows the request that got the 429; with a non-negative delay, every such request is followed by its sleep. |
| `KlineFetching.OneSleepPerRateLimit` | bot.py:84-95 | With a non-negative delay, the number of sleeps equals the number of 429 outcomes among the attempts made; generic failures add no sleep; every sleep lasts the delay. |
| `KlineFetching.AlwaysRateLimited` | bot.py:77-97 | Against an endpoint that always answers 429, with a non-negative delay, all attempts of the budget are made, each followed by one sleep of the delay, and the result is the budget-exhausted None. |
| `RsiCalculation.CalculateRsi` | bot.py:101-127 | The RSI is returned only for a dict whose "list" entry is truthy (a `false`, `0`, `""`, `[]` or `{}` entry gives None; a truthy non-list goes to the indicator), and then it is the indicator's value for that list; otherwise None, never an exception. |
| `RsiCalculation.GuardsGiveNone` | bot.py:104-124 | A value that is not a dict, a missing "list" key, or an empty list gives None whatever the indicator. |
| `JsonValues.Member` | bot.py:83 | `data["result"]` and `"list" in klines` / `klines["list"]` (bot.py:104-105): an entry exactly when the value is a dict holding the key, and then that entry; any other value (a dict without the key, or a list, string, number or null, on which the `in` test is false or the lookup raises) gives None, and the source's handlers treat those cases alike. |
| `JsonValues.Truthy` | bot.py:106 | `if klines_list:`: the false values are exactly null, false, 0, the empty string, the empty list and the empty dict. |
| `Decimal.NatToString` | bot.py:156-160 | The decimal text of a non-negative RSI is non-empty, all digits, and has no leading zero: 0 prints as "0", and a longer text never starts with '0'. |
| `Decimal.IntToString` | bot.py:156-160 | `{rsi}` in the alert f-strings: a minus sign exactly for a negative RSI, followed by digits without a leading zero. |
| `Decimal.NatToStringRoundTrip` | bot.py:156-160 | Reading the digits back gives the number. |
| `Decimal.IntToStringRoundTrip` | bot.py:156-160 | Parsing the text printed for any integer RSI, sign included, gives that integer back. |
| `Decimal.IntToStringInjective` | bot.py:156-160 | Different RSI values print as different texts. |
| `Bot.Decide` | bot.py:154-161 | Overbought exactly when RSI > 70, oversold exactly when RSI < 30, no alert exactly when 30 <= RSI <= 70. |
| `Bot.Message` | bot.py:155-161 | An alert's text is "RSI is overbought at " or "RSI is oversold at " followed by a text that parses back to exactly the alert's RSI. |
| `Bot.Klines` | bot.py:150-151 | The cycle has klines exactly when the fetch returned a payload that is not JSON null; budget exhaustion, a raised error and `{"result": null}` all count as "no klines". |
| `Bot.RsiOf` | bot.py:150-152 | The RSI the cycle computes: present only when the fetch returned a dict holding a truthy "list", and then the indicator's value for that list; `calculate_rsi` is consulted only when the klines are not None. |
| `Bot.MessageInjective` | bot.py:155-161 | The alert text determines both the kind of alert and its RSI. |
| `Bot.CheckRsi` | bot.py:148-165 | A cycle sends at most one message; a raised fetch error escapes and sends nothing; a message is sent only when an RSI was computed. |
| `Bot.OverboughtIff` | bot.py:153-157 | The cycle sends exactly "RSI is overbought at {rsi}" if and only if the computed RSI is rsi and rsi > 70. |
| `Bot.OversoldIff` | bot.py:153-161 | The cycle sends exactly "RSI is oversold at {rsi}" if and only if the computed RSI is rsi and rsi < 30. |
| `Bot.QuietIff` | bot.py:150-165 | Nothing is sent if and only if no RSI was computed or it lies in [30, 70]. |
| `Bot.NoKlinesNoCalculation` | bot.py:150-152 | When the fetch gives None or raises, the cycle does not depend on the indicator and sends nothing. |
| `Bot.Notifier.constructor` | bot.py:131-133 | A notifier keeps its channel id and starts with an empty message log. |
| `Bot.Notifier.SendRsiAlert` | bot.py:135-138 | Sending appends the message to the channel's log and changes nothing else. |
| `Bot.DiscordBot.constructor` | bot.py:38-49 | The bot keeps the fetcher and notifier it is given. |
| `Bot.DiscordBot.CheckRsiAndNotify` | bot.py:148-165 | One cycle runs the fetcher, appends exactly the messages of `CheckRsi` for the fetcher's result to the log, and reports the exception that escapes. |

## Left out

- HTTP through `requests`, the URL built from symbol and interval, and JSON decoding: replaced by the outcome oracle; symbol and interval are kept as fields but affect nothing in the model.
- A request that never returns: bot.py:80 calls `requests.get` with no timeout, so one attempt can block forever; the oracle gives every attempt an outcome, so the termination and attempt bounds hold only under that assumption.
- `time.sleep` as real time: recorded only as a ghost `Sleep` event.
- The RSI arithmetic (DataFrame, float conversion of closes, stockstats `rsi_14`, `int` truncation): floating point in foreign libraries, so it is the parameter `rsi14`.
- JSON numbers are integers in the model; floats (and the truthiness of `0.0`) are not modelled, and `retry_after_seconds` is an integer.
- An `HTTPError` that carries no response object (its `status_code` lookup would itself raise) is not modelled.
- The Discord client, `get_channel`, delivery failures of `send`, `on_ready` and the asyncio task: I/O and async plumbing; sending is an append to `Notifier.sent`.
- The APScheduler cron job at minute 0: a foreign scheduler; the model has one cycle, not the schedule.
- Loading `.env`, reading the token and channel id, printing and the `__main__` bootstrap.
- `DiscordBot` holds no calculator object: the numeric stage of the calculator is the `rsi14` parameter of each cycle, whereas the source keeps `self.calculator` for the bot's lifetime; the guards of the calculator are the fixed function `CalculateRsi`.
- A non-negative delay too large for `time.sleep` (which would raise an overflow error) is modelled as an ordinary sleep.
- The abstract base classes: they declare the roles and carry no logic; the model uses the concrete classes directly.
