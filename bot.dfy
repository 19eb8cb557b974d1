/**
 * One check cycle of the Discord bot: fetch the klines, compute the RSI,
 * compare it with the fixed thresholds and send at most one alert.
 */
module Bot {
  import opened Wrappers
  import opened JsonValues
  import opened Decimal
  import opened KlineFetching
  import opened RsiCalculation

  /** An RSI strictly above this is overbought. */
  const OverboughtAbove := 70
  /** An RSI strictly below this is oversold. */
  const OversoldBelow := 30

  datatype Alert = Overbought(rsi: int) | Oversold(rsi: int)

  /** The threshold decision, with strict comparisons at both ends. */
  function Decide(rsi: int): (a: Option<Alert>)
    ensures a == Some(Overbought(rsi)) <==> rsi > OverboughtAbove
    ensures a == Some(Oversold(rsi)) <==> rsi < OversoldBelow
    ensures a == None <==> OversoldBelow <= rsi <= OverboughtAbove
    ensures a.Some? ==> a.value.rsi == rsi
  {
    if rsi > OverboughtAbove then Some(Overbought(rsi))
    else if rsi < OversoldBelow then Some(Oversold(rsi))
    else None
  }

  /** The fixed text in front of the RSI in an alert. */
  function Prefix(a: Alert): string {
    if a.Overbought? then "RSI is overbought at " else "RSI is oversold at "
  }

  /**
   * The text of an alert, as the f-strings of the cycle format it: the fixed
   * text of its kind, then the RSI, which reads back exactly.
   */
  function Message(a: Alert): (m: string)
    ensures |Prefix(a)| <= |m| && m[..|Prefix(a)|] == Prefix(a)
    ensures ParseInt(m[|Prefix(a)|..]) == Some(a.rsi)
  {
    IntToStringRoundTrip(a.rsi);
    var m := Prefix(a) + IntToString(a.rsi);
    assert m[|Prefix(a)|..] == IntToString(a.rsi);
    m
  }

  /** A text can begin with the fixed text of only one kind of alert. */
  lemma PrefixDetermined(a: Alert, b: Alert, m: string)
    requires |Prefix(a)| <= |m| && m[..|Prefix(a)|] == Prefix(a)
    requires |Prefix(b)| <= |m| && m[..|Prefix(b)|] == Prefix(b)
    ensures a.Overbought? == b.Overbought?
  {
    assert m[11] == Prefix(a)[11] && m[11] == Prefix(b)[11];
  }

  /** The text of an alert tells its kind and its exact RSI. */
  lemma MessageInjective(a: Alert, b: Alert)
    ensures Message(a) == Message(b) ==> a == b
  {
    if Message(a) == Message(b) {
      PrefixDetermined(a, b, Message(a));
      assert Prefix(a) == Prefix(b);
    }
  }

  /** `klines is not None`: the fetched payload, unless the fetch gave None or a JSON null. */
  function Klines(fetched: FetchResult): (k: Option<Json>)
    ensures k.Some? ==> fetched == Fetched(k.value) && !k.value.JNull?
    ensures k.None? <==> fetched.Exhausted? || fetched.Raised? || fetched == Fetched(JNull)
  {
    if fetched.Fetched? && !fetched.payload.JNull? then Some(fetched.payload) else None
  }

  /** The calculator's answer in a cycle, None when the calculator is not consulted. */
  function RsiOf(fetched: FetchResult, rsi14: Json -> Option<int>): (r: Option<int>)
    ensures r.Some? ==>
      && fetched.Fetched? && fetched.payload.JObject? && "list" in fetched.payload.fields
      && Truthy(fetched.payload.fields["list"]) && r == rsi14(fetched.payload.fields["list"])
    ensures (fetched.Fetched? && fetched.payload.JObject? && "list" in fetched.payload.fields
             && Truthy(fetched.payload.fields["list"])) ==> r == rsi14(fetched.payload.fields["list"])
  {
    match Klines(fetched)
    case None => None
    case Some(klines) => CalculateRsi(klines, rsi14)
  }

  /** What one cycle does: the messages it sends and the exception it lets escape. */
  datatype Cycle = Cycle(sent: seq<string>, raised: Option<FetchError>)

  /** `check_rsi_and_notify` as a function of the fetch result and the indicator. */
  function CheckRsi(fetched: FetchResult, rsi14: Json -> Option<int>): (c: Cycle)
    ensures |c.sent| <= 1
    ensures c.raised == (if fetched.Raised? then Some(fetched.error) else None)
    ensures c.sent != [] ==> RsiOf(fetched, rsi14).Some? && c.raised == None
  {
    if fetched.Raised? then Cycle([], Some(fetched.error))
    else match RsiOf(fetched, rsi14)
      case None => Cycle([], None)
      case Some(rsi) =>
        match Decide(rsi)
        case None => Cycle([], None)
        case Some(alert) => Cycle([Message(alert)], None)
  }

  /** The cycle sends "RSI is overbought at {rsi}" exactly when the RSI it computed is above 70. */
  lemma OverboughtIff(fetched: FetchResult, rsi14: Json -> Option<int>, rsi: int)
    ensures CheckRsi(fetched, rsi14).sent == ["RSI is overbought at " + IntToString(rsi)]
      <==> RsiOf(fetched, rsi14) == Some(rsi) && rsi > OverboughtAbove
  {
    var c := CheckRsi(fetched, rsi14);
    if c.sent == [Message(Overbought(rsi))] {
      var computed := RsiOf(fetched, rsi14).value;
      MessageInjective(Decide(computed).value, Overbought(rsi));
    }
  }

  /** The cycle sends "RSI is oversold at {rsi}" exactly when the RSI it computed is below 30. */
  lemma OversoldIff(fetched: FetchResult, rsi14: Json -> Option<int>, rsi: int)
    ensures CheckRsi(fetched, rsi14).sent == ["RSI is oversold at " + IntToString(rsi)]
      <==> RsiOf(fetched, rsi14) == Some(rsi) && rsi < OversoldBelow
  {
    var c := CheckRsi(fetched, rsi14);
    if c.sent == [Message(Oversold(rsi))] {
      var computed := RsiOf(fetched, rsi14).value;
      MessageInjective(Decide(computed).value, Oversold(rsi));
    }
  }

  /** Nothing is sent exactly when there is no RSI or it lies within [30, 70]. */
  lemma QuietIff(fetched: FetchResult, rsi14: Json -> Option<int>)
    ensures CheckRsi(fetched, rsi14).sent == []
      <==> (RsiOf(fetched, rsi14).None? || OversoldBelow <= RsiOf(fetched, rsi14).value <= OverboughtAbove)
  {
  }

  /**
   * Without klines (the fetch gave None or null, or raised) the calculator is not
   * consulted: the cycle is the same whatever the indicator, and sends nothing.
   */
  lemma NoKlinesNoCalculation(fetched: FetchResult, rsi14: Json -> Option<int>, other: Json -> Option<int>)
    requires Klines(fetched).None?
    ensures CheckRsi(fetched, rsi14) == CheckRsi(fetched, other)
    ensures CheckRsi(fetched, rsi14).sent == []
  {
  }

  /** The alert boundary: send-or-deliver of one message to the configured channel. */
  class Notifier {
    const channelId: int
    /** Every message handed to the channel, oldest first. */
    var sent: seq<string>

    constructor (channelId: int)
      ensures this.channelId == channelId && sent == []
    {
      this.channelId := channelId;
      sent := [];
    }

    method SendRsiAlert(message: string)
      modifies this
      ensures sent == old(sent) + [message]
    {
      sent := sent + [message];
    }
  }

  /** The bot: a fetcher and a notifier; the calculator's numeric stage is passed per cycle. */
  class DiscordBot {
    const fetcher: KlineFetcher
    const notifier: Notifier

    constructor (fetcher: KlineFetcher, notifier: Notifier)
      ensures this.fetcher == fetcher && this.notifier == notifier
    {
      this.fetcher := fetcher;
      this.notifier := notifier;
    }

    /**
     * One check cycle against the given network and indicator. A fetch that
     * raises ends the cycle with that exception; otherwise at most one alert
     * is appended to the notifier's log.
     */
    method CheckRsiAndNotify(network: nat -> Outcome, rsi14: Json -> Option<int>) returns (raised: Option<FetchError>)
      modifies notifier
      ensures var cycle := CheckRsi(fetcher.Run(network).0, rsi14);
        notifier.sent == old(notifier.sent) + cycle.sent && raised == cycle.raised
    {
      var klines: FetchResult;
      ghost var trace: seq<Event>;
      klines, trace := fetcher.FetchKlines(network);
      if klines.Raised? {
        return Some(klines.error);
      }
      raised := None;
      if klines.Fetched? && !klines.payload.JNull? {
        var rsi := CalculateRsi(klines.payload, rsi14);
        if rsi.Some? {
          if rsi.value > OverboughtAbove {
            notifier.SendRsiAlert("RSI is overbought at " + IntToString(rsi.value));
          } else if rsi.value < OversoldBelow {
            notifier.SendRsiAlert("RSI is oversold at " + IntToString(rsi.value));
          }
        }
      }
    }
  }
}
