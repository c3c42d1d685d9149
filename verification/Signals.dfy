/** Live routing signals: the per-provider smoothed latency that the executor writes and
    latency-aware routing reads (gateway/routing/signals.py). */
module Signals {
  import opened Prelude

  /** One measured call of a provider. */
  datatype Measure = Measure(provider: string, seconds: real)

  /** One fold of the exponentially weighted moving average. */
  function Ewma(alpha: real, prev: real, ms: real): real {
    alpha * ms + (1.0 - alpha) * prev
  }

  /** A sample in seconds folded into its provider's average in milliseconds; the first seeds it. */
  function Smooth(alpha: real, latency: map<string, real>, m: Measure): map<string, real> {
    var ms := m.seconds * 1000.0;
    latency[m.provider := if m.provider in latency then Ewma(alpha, latency[m.provider], ms) else ms]
  }

  /** The averages after all samples so far. */
  function Averages(alpha: real, samples: seq<Measure>): map<string, real> {
    if samples == [] then map[]
    else Smooth(alpha, Averages(alpha, samples[..|samples| - 1]), samples[|samples| - 1])
  }

  class RoutingSignals {
    const alpha: real
    const price: map<string, real>
    var latency: map<string, real>
    ghost var samples: seq<Measure>

    ghost predicate Valid()
      reads this
    {
      latency == Averages(alpha, samples)
    }

    constructor (price: map<string, real>, alpha: real)
      ensures Valid() && this.alpha == alpha && this.price == price && samples == []
    {
      this.alpha, this.price, latency, samples := alpha, price, map[], [];
    }

    method RecordLatency(provider: string, seconds: real)
      requires Valid()
      modifies this
      ensures Valid() && samples == old(samples) + [Measure(provider, seconds)]
    {
      var ms := seconds * 1000.0;
      var prev := LatencyMs(provider);
      if prev == None {
        latency := latency[provider := ms];
      } else {
        latency := latency[provider := Ewma(alpha, prev.value, ms)];
      }
      samples := samples + [Measure(provider, seconds)];
      assert samples[..|samples| - 1] == old(samples);
    }

    function LatencyMs(provider: string): (r: Option<real>)
      reads this
      ensures r.Some? <==> provider in latency
      ensures r.Some? ==> r.value == latency[provider]
    {
      if provider in latency then Some(latency[provider]) else None
    }
  }
}
