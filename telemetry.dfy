/** The car telemetry of a driver's fastest lap as the analysers read it: a
    table of samples with the channels the feed supplied, and the sample
    counts and shares they take of it. */
module Telemetry {

  import opened Common

  /** A telemetry table of `size` samples; a channel is None when the
      table has no such column, otherwise it has one value per sample. */
  datatype Channels = Channels(
    size: nat,
    speed: Option<seq<real>>,
    throttle: Option<seq<real>>,
    brake: Option<seq<real>>,
    rpm: Option<seq<real>>,
    x: Option<seq<real>>,
    y: Option<seq<real>>)

  predicate HasLength(c: Option<seq<real>>, n: nat)
  {
    c.Some? ==> |c.value| == n
  }

  /** Every present channel covers every sample; speeds are positive (km/h
      on a flying lap) and throttle is a percentage. */
  predicate WellFormed(t: Channels)
  {
    && HasLength(t.speed, t.size) && HasLength(t.throttle, t.size) && HasLength(t.brake, t.size)
    && HasLength(t.rpm, t.size) && HasLength(t.x, t.size) && HasLength(t.y, t.size)
    && (t.speed.Some? ==> forall i :: 0 <= i < |t.speed.value| ==> t.speed.value[i] > 0.0)
    && (t.throttle.Some? ==> forall i :: 0 <= i < |t.throttle.value| ==> 0.0 <= t.throttle.value[i] <= 100.0)
  }

  /** The telemetry of a lap: well formed and not empty. */
  type Trace = t: Channels | WellFormed(t) && t.size > 0
    witness Channels(1, None, None, None, None, None, None)

  predicate Above(bound: real, v: real)
  {
    v > bound
  }

  /** `(s > bound).sum()`. */
  function CountAbove(s: seq<real>, bound: real): (n: nat)
    ensures n <= |s|
  {
    CountWhere(s, v => Above(bound, v))
  }

  /** `(s > bound).sum() / len(s) * 100`: the share of samples above the
      bound, in percent. */
  function ShareAbove(s: seq<real>, bound: real): (p: real)
    requires |s| > 0
    ensures 0.0 <= p <= 100.0
    ensures p == 0.0 <==> forall i :: 0 <= i < |s| ==> s[i] <= bound
  {
    CountNone(s, bound);
    Percentage(CountAbove(s, bound), |s|)
  }

  lemma {:induction false} CountNone(s: seq<real>, bound: real)
    ensures CountAbove(s, bound) == 0 <==> forall i :: 0 <= i < |s| ==> s[i] <= bound
  {
    if s != [] {
      CountNone(s[1..], bound);
      assert forall i :: 1 <= i < |s| ==> s[i] == s[1..][i - 1];
    }
  }

  predicate IsFull(v: real)
  {
    v == 100.0
  }

  /** `(s == 100).sum()`: the samples at full throttle. */
  function CountFull(s: seq<real>): (n: nat)
    ensures n <= |s|
  {
    CountWhere(s, IsFull)
  }
}
