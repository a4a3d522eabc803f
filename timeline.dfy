/**
  The bucketing of `initTimeLine`: the GPS samples of a period, in the order the
  server returns them, become the point features of the history slider. A
  sample opens a new feature when it is at least five minutes after the sample
  that opened the current feature; opening one closes the previous feature at
  the new start; the last feature ends where it starts. The slider has one step
  per whole hour between the earliest and the latest sample. Timestamps are
  integer milliseconds.
 */
module Timeline {

  const FiveMinutes: int := 5 * 60 * 1000
  const OneHour: int := 60 * 60 * 1000

  /** One position of `getPositions`: `createdAt` in milliseconds, and its coordinates. */
  datatype Sample = Sample(createdAt: int, latitude: real, longitude: real)

  /** A feature of the timeline: `properties.start`, `properties.end` and the point's coordinates. */
  datatype Moment = Moment(start: int, end: int, latitude: real, longitude: real)

  /** The slider options: `steps` whole hours and a `duration` of a second per step. */
  datatype Slider = Slider(steps: int, duration: int)

  /** Whether the sample at index `t` is pushed, given the start of the current feature. */
  predicate Opens(current: int, t: int)
  {
    t >= current + FiveMinutes
  }

  /** The indices of the samples, among the first `n`, that open a feature. */
  function Openers(samples: seq<Sample>, n: nat): (r: seq<nat>)
    requires n <= |samples|
    ensures n > 0 <==> |r| > 0
    ensures |r| <= n
    ensures forall k | 0 <= k < |r| :: r[k] < n
    ensures n > 0 ==> r[0] == 0
    decreases n
  {
    if n == 0 then []
    else if n == 1 then [0]
    else
      var prev := Openers(samples, n - 1);
      if Opens(samples[prev[|prev| - 1]].createdAt, samples[n - 1].createdAt) then prev + [n - 1] else prev
  }

  /** The features the loop builds: one per opening sample, each ending at the next one's start. */
  function Moments(samples: seq<Sample>): (r: seq<Moment>)
  {
    var openers := Openers(samples, |samples|);
    seq(|openers|, k requires 0 <= k < |openers| => MomentAt(samples, openers, k))
  }

  /** The feature opened by the `k`-th opener: from its sample to the next opener, or to itself when last. */
  function MomentAt(samples: seq<Sample>, openers: seq<nat>, k: nat): (m: Moment)
    requires k < |openers| && forall i | 0 <= i < |openers| :: openers[i] < |samples|
    ensures m.start == samples[openers[k]].createdAt
    ensures m.latitude == samples[openers[k]].latitude && m.longitude == samples[openers[k]].longitude
    ensures m.end == if k + 1 < |openers| then samples[openers[k + 1]].createdAt else m.start
  {
    var s := samples[openers[k]];
    var next := if k + 1 < |openers| then samples[openers[k + 1]].createdAt else s.createdAt;
    Moment(s.createdAt, next, s.latitude, s.longitude)
  }

  /** A new feature for a sample; its end is filled in later. */
  function Open(s: Sample): Moment
  {
    Moment(s.createdAt, s.createdAt, s.latitude, s.longitude)
  }

  /**
    The features pushed once the first `n` samples are handled, the last one
    still open: a sample at least five minutes after the start of the last
    feature closes it at its own time and opens the next.
   */
  function Building(samples: seq<Sample>, n: nat): (r: seq<Moment>)
    requires n <= |samples|
    ensures n > 0 ==> |r| > 0
    decreases n
  {
    if n == 0 then []
    else if n == 1 then [Open(samples[0])]
    else
      var prev := Building(samples, n - 1);
      var t := samples[n - 1].createdAt;
      if Opens(prev[|prev| - 1].start, t) then prev[|prev| - 1 := prev[|prev| - 1].(end := t)] + [Open(samples[n - 1])]
      else prev
  }

  /** One feature per opener so far, the last one started by the last opener. */
  lemma {:induction false} BuildingOpeners(samples: seq<Sample>, n: nat)
    requires n <= |samples|
    ensures var r := Building(samples, n);
      && |r| == |Openers(samples, n)|
      && (n > 0 ==> r[|r| - 1].start == samples[Openers(samples, n)[|r| - 1]].createdAt)
    decreases n, 1
  {
    if n > 1 {
      BuildingOpeners(samples, n - 1);
      BuildingStep(samples, n);
    }
  }

  /** The last feature ends where it starts. */
  function Close(features: seq<Moment>): (r: seq<Moment>)
    requires |features| > 0
  {
    features[|features| - 1 := features[|features| - 1].(end := features[|features| - 1].start)]
  }

  /** One more sample either opens a feature in both descriptions or in neither. */
  lemma BuildingStep(samples: seq<Sample>, n: nat)
    requires 1 < n <= |samples|
    ensures var prev, oprev := Building(samples, n - 1), Openers(samples, n - 1);
      var t := samples[n - 1].createdAt;
      if Opens(prev[|prev| - 1].start, t) then
        Building(samples, n) == prev[|prev| - 1 := prev[|prev| - 1].(end := t)] + [Open(samples[n - 1])]
        && Openers(samples, n) == oprev + [n - 1]
      else Building(samples, n) == prev && Openers(samples, n) == oprev
    decreases n, 0
  {
    BuildingOpeners(samples, n - 1);
  }

  /** A sample less than five minutes after the start of the last feature leaves the features as they are. */
  lemma BuildingSkips(samples: seq<Sample>, n: nat)
    requires 1 < n <= |samples|
    requires var prev := Building(samples, n - 1); !Opens(prev[|prev| - 1].start, samples[n - 1].createdAt)
    ensures Building(samples, n) == Building(samples, n - 1)
  {
  }

  /** Any other sample closes the last feature at its own time and pushes a new one. */
  lemma BuildingPushes(samples: seq<Sample>, n: nat)
    requires 1 < n <= |samples|
    requires var prev := Building(samples, n - 1); Opens(prev[|prev| - 1].start, samples[n - 1].createdAt)
    ensures var prev := Building(samples, n - 1);
      Building(samples, n) == prev[|prev| - 1 := prev[|prev| - 1].(end := samples[n - 1].createdAt)] + [Open(samples[n - 1])]
  {
  }

  /** One turn of the loop of `Bucket`, in the loop's own terms. */
  lemma BuildingNext(samples: seq<Sample>, index: nat, features: seq<Moment>, last: int)
    requires index < |samples| && features == Building(samples, index)
    requires index > 0 ==> |features| > 0 && last == features[|features| - 1].start
    ensures index == 0 ==> Building(samples, 1) == features + [Open(samples[0])]
    ensures index > 0 && samples[index].createdAt < last + FiveMinutes ==> Building(samples, index + 1) == features
    ensures index > 0 && samples[index].createdAt >= last + FiveMinutes ==>
              Building(samples, index + 1)
              == features[|features| - 1 := features[|features| - 1].(end := samples[index].createdAt)] + [Open(samples[index])]
  {
    if index > 0 {
      if samples[index].createdAt < last + FiveMinutes {
        BuildingSkips(samples, index + 1);
      } else {
        BuildingPushes(samples, index + 1);
      }
    }
  }

  /** Each feature under construction starts at, and sits on, its opening sample. */
  lemma {:induction false} BuildingStarts(samples: seq<Sample>, n: nat)
    requires n <= |samples|
    ensures |Building(samples, n)| == |Openers(samples, n)|
    ensures forall k | 0 <= k < |Building(samples, n)| ::
              Building(samples, n)[k].start == samples[Openers(samples, n)[k]].createdAt
              && Building(samples, n)[k].latitude == samples[Openers(samples, n)[k]].latitude
              && Building(samples, n)[k].longitude == samples[Openers(samples, n)[k]].longitude
    decreases n
  {
    BuildingOpeners(samples, n);
    if n > 1 {
      BuildingStarts(samples, n - 1);
      BuildingStep(samples, n);
    }
  }

  /** Each feature under construction but the last ends at the next opening sample. */
  lemma {:induction false} BuildingEnds(samples: seq<Sample>, n: nat)
    requires n <= |samples|
    ensures |Building(samples, n)| == |Openers(samples, n)|
    ensures forall k | 0 <= k < |Building(samples, n)| - 1 ::
              Building(samples, n)[k].end == samples[Openers(samples, n)[k + 1]].createdAt
    decreases n
  {
    BuildingOpeners(samples, n);
    if n > 1 {
      BuildingEnds(samples, n - 1);
      BuildingStep(samples, n);
      var prev, oprev := Building(samples, n - 1), Openers(samples, n - 1);
      var b, o := Building(samples, n), Openers(samples, n);
      if |o| > |oprev| {
        forall k | 0 <= k < |b| - 1 ensures b[k].end == samples[o[k + 1]].createdAt {
          if k < |prev| - 1 {
            assert b[k] == prev[k] && o[k + 1] == oprev[k + 1];
          } else {
            assert o[k + 1] == n - 1;
          }
        }
      }
    }
  }

  /** Closing the features under construction gives the reference features. */
  lemma ClosedBuildingIsMoments(samples: seq<Sample>)
    requires |samples| > 0
    ensures Close(Building(samples, |samples|)) == Moments(samples)
  {
    BuildingOpeners(samples, |samples|);
    var c, m := Close(Building(samples, |samples|)), Moments(samples);
    forall k | 0 <= k < |c| ensures c[k] == m[k] {
      ClosedFeature(samples, k);
    }
  }

  /** The `k`-th closed feature is the `k`-th reference feature. */
  lemma ClosedFeature(samples: seq<Sample>, k: nat)
    requires |samples| > 0 && k < |Building(samples, |samples|)| == |Openers(samples, |samples|)|
    ensures Close(Building(samples, |samples|))[k] == Moments(samples)[k]
  {
    var b, o := Building(samples, |samples|), Openers(samples, |samples|);
    StartAt(samples, k);
    if k + 1 < |b| {
      EndAt(samples, k);
    }
    var c, m := Close(b)[k], MomentAt(samples, o, k);
    assert Moments(samples)[k] == m;
    assert c.start == m.start && c.latitude == m.latitude && c.longitude == m.longitude;
  }

  lemma StartAt(samples: seq<Sample>, k: nat)
    requires |samples| > 0 && k < |Building(samples, |samples|)| == |Openers(samples, |samples|)|
    ensures var b, o := Building(samples, |samples|), Openers(samples, |samples|);
      b[k].start == samples[o[k]].createdAt
      && b[k].latitude == samples[o[k]].latitude && b[k].longitude == samples[o[k]].longitude
  {
    BuildingStarts(samples, |samples|);
  }

  lemma EndAt(samples: seq<Sample>, k: nat)
    requires |samples| > 0 && k + 1 < |Building(samples, |samples|)| == |Openers(samples, |samples|)|
    ensures var b, o := Building(samples, |samples|), Openers(samples, |samples|);
      b[k].end == samples[o[k + 1]].createdAt
  {
    BuildingEnds(samples, |samples|);
  }

  /**
    The `forEach` of `initTimeLine`: `lastPositionDateTime` is the start of the
    current feature; a sample less than five minutes after it is skipped; any
    other closes the last feature and pushes a new one; after the loop the
    last feature's end is set to its start.
   */
  method Bucket(samples: seq<Sample>) returns (features: seq<Moment>)
    ensures features == Moments(samples)
  {
    features := [];
    if |samples| == 0 {
      return;
    }
    var last := 0;
    var index := 0;
    while index < |samples|
      invariant 0 <= index <= |samples|
      invariant features == Building(samples, index)
      invariant index > 0 ==> |features| > 0 && last == features[|features| - 1].start
    {
      var position := samples[index];
      BuildingNext(samples, index, features, last);
      if index == 0 {
        last := position.createdAt;
        features := features + [Open(position)];
      } else if position.createdAt < last + FiveMinutes {
      } else {
        features := features[|features| - 1 := features[|features| - 1].(end := position.createdAt)];
        last := position.createdAt;
        features := features + [Open(position)];
      }
      index := index + 1;
    }
    features := Close(features);
    ClosedBuildingIsMoments(samples);
  }

  /**
    `parseInt(duration.asHours(), 10)`: the hours, as a double, are written as
    text before they are parsed. A spread of 1 to 3 ms is below 1e-6 hours,
    whose text is in exponent notation (`2.7777777777777776e-7` for 1 ms), so
    the leading digit of the mantissa is what is read: 2, 5 or 8. Any other
    spread gives the whole hours between the extremes, truncated.
   */
  function Steps(earliest: int, latest: int): (h: int)
    requires earliest <= latest
    ensures h >= 0
    ensures !(1 <= latest - earliest <= 3) ==> h * OneHour <= latest - earliest < (h + 1) * OneHour
    ensures 1 <= latest - earliest <= 3 ==> h * OneHour <= (latest - earliest) * 10_000_000 < (h + 1) * OneHour
  {
    var spread := latest - earliest;
    if 1 <= spread <= 3 then (spread * 10_000_000) / OneHour else spread / OneHour
  }

  function Earliest(samples: seq<Sample>): (m: int)
    requires |samples| > 0
    ensures forall k | 0 <= k < |samples| :: m <= samples[k].createdAt
    ensures exists k | 0 <= k < |samples| :: m == samples[k].createdAt
  {
    if |samples| == 1 then samples[0].createdAt
    else
      var rest := Earliest(samples[1..]);
      if samples[0].createdAt <= rest then samples[0].createdAt else rest
  }

  function Latest(samples: seq<Sample>): (m: int)
    requires |samples| > 0
    ensures forall k | 0 <= k < |samples| :: samples[k].createdAt <= m
    ensures exists k | 0 <= k < |samples| :: m == samples[k].createdAt
  {
    if |samples| == 1 then samples[0].createdAt
    else
      var rest := Latest(samples[1..]);
      if samples[0].createdAt >= rest then samples[0].createdAt else rest
  }

  /**
    The slider control for a non-empty period: `steps: hours, duration: hours * 1000`,
    where the hours are the whole hours between the extremes unless they lie 1 to 3 ms apart.
   */
  function SliderFor(samples: seq<Sample>): (s: Slider)
    requires |samples| > 0
    ensures s.duration == s.steps * 1000
    ensures s.steps >= 0
    ensures !(1 <= Latest(samples) - Earliest(samples) <= 3) ==>
              s.steps * OneHour <= Latest(samples) - Earliest(samples) < (s.steps + 1) * OneHour
  {
    var hours := Steps(Earliest(samples), Latest(samples));
    Slider(hours, hours * 1000)
  }

  /** Where the run of samples the `k`-th opener covers ends (exclusive): the next opener, or `n`. */
  function RunEnd(openers: seq<nat>, k: nat, n: nat): nat
    requires k < |openers|
  {
    if k + 1 < |openers| then openers[k + 1] else n
  }

  /**
    Each opening sample is at least five minutes after the previous opener, and
    every skipped sample, between one opener and the next or after the last,
    is less than five minutes after the opener before it.
   */
  lemma {:induction false} OpenersSpaced(samples: seq<Sample>, n: nat)
    requires n <= |samples|
    ensures forall k | 0 < k < |Openers(samples, n)| ::
              Openers(samples, n)[k - 1] < Openers(samples, n)[k]
              && samples[Openers(samples, n)[k]].createdAt
                 >= samples[Openers(samples, n)[k - 1]].createdAt + FiveMinutes
    ensures var o := Openers(samples, n);
      forall k, j | 0 <= k < |o| && o[k] < j < RunEnd(o, k, n) && j < |samples| ::
        samples[j].createdAt < samples[o[k]].createdAt + FiveMinutes
  {
    OpenerGaps(samples, n);
    var o := Openers(samples, n);
    forall k, j | 0 <= k < |o| && o[k] < j < RunEnd(o, k, n) && j < |samples|
      ensures samples[j].createdAt < samples[o[k]].createdAt + FiveMinutes
    {
      SkippedNear(samples, n, k, j);
    }
  }

  /** The openers of `OpenersSpaced` increase, each five minutes or more after the one before. */
  lemma {:induction false} OpenerGaps(samples: seq<Sample>, n: nat)
    requires n <= |samples|
    ensures forall k | 0 < k < |Openers(samples, n)| ::
              Openers(samples, n)[k - 1] < Openers(samples, n)[k]
              && samples[Openers(samples, n)[k]].createdAt
                 >= samples[Openers(samples, n)[k - 1]].createdAt + FiveMinutes
    decreases n
  {
    if n > 1 {
      OpenerGaps(samples, n - 1);
    }
  }

  /** One skipped sample of `OpenersSpaced`: less than five minutes after the opener before it. */
  lemma {:induction false} SkippedNear(samples: seq<Sample>, n: nat, k: nat, j: nat)
    requires n <= |samples|
    requires k < |Openers(samples, n)|
    requires Openers(samples, n)[k] < j < RunEnd(Openers(samples, n), k, n)
    ensures j < |samples| && samples[j].createdAt < samples[Openers(samples, n)[k]].createdAt + FiveMinutes
    decreases n
  {
    var o := Openers(samples, n);
    assert n > 1 by {
      if n == 1 { assert o == [0]; }
    }
    var prev := Openers(samples, n - 1);
    var last := prev[|prev| - 1];
    if Opens(samples[last].createdAt, samples[n - 1].createdAt) {
      assert o == prev + [n - 1];
      assert k < |prev| && o[k] == prev[k] && RunEnd(o, k, n) == RunEnd(prev, k, n - 1);
      SkippedNear(samples, n - 1, k, j);
    } else if j < n - 1 {
      assert o == prev;
      SkippedNear(samples, n - 1, k, j);
    } else {
      assert o == prev && k == |prev| - 1 && o[k] == last;
    }
  }

  /**
    The shape of the slider data for a non-empty period: the first feature starts
    at the first sample, starts are five minutes apart or more, each feature ends
    where the next starts, the last ends where it starts, and there are no more
    features than samples.
   */
  lemma MomentsShape(samples: seq<Sample>)
    requires |samples| > 0
    ensures var m := Moments(samples);
      && 0 < |m| <= |samples|
      && m[0].start == samples[0].createdAt
      && (forall k | 0 < k < |m| :: m[k].start >= m[k - 1].start + FiveMinutes)
      && (forall k | 0 <= k < |m| - 1 :: m[k].end == m[k + 1].start)
      && m[|m| - 1].end == m[|m| - 1].start
  {
    OpenersSpaced(samples, |samples|);
  }

  /** No samples, no features. */
  lemma NoSamplesNoMoments()
    ensures Moments([]) == []
  {
  }

  /**
    Samples at 10:00, 10:02, 10:10 and 10:11 give two features: 10:00 to 10:10,
    and 10:10 to 10:10. The 10:11 sample is skipped although it is nine minutes
    after 10:02, because it is only one minute after 10:10.
   */
  lemma FourSamples(la: real, lo: real)
    ensures var minute := 60 * 1000;
      var at := (t: int) => Sample(t * minute, la, lo);
      Moments([at(600), at(602), at(610), at(611)])
      == [Moment(600 * minute, 610 * minute, la, lo), Moment(610 * minute, 610 * minute, la, lo)]
  {
    var minute := 60 * 1000;
    var samples := [Sample(600 * minute, la, lo), Sample(602 * minute, la, lo),
                    Sample(610 * minute, la, lo), Sample(611 * minute, la, lo)];
    assert Openers(samples, 1) == [0];
    assert Openers(samples, 2) == [0];
    assert Openers(samples, 3) == [0, 2];
    assert Openers(samples, 4) == [0, 2];
  }

  /** A slow walk sampled every three minutes opens a feature every six minutes, not only after a gap. */
  lemma EveryThreeMinutes(la: real, lo: real)
    ensures var minute := 60 * 1000;
      Openers([Sample(0, la, lo), Sample(3 * minute, la, lo), Sample(6 * minute, la, lo), Sample(9 * minute, la, lo)], 4)
      == [0, 2]
  {
    var minute := 60 * 1000;
    var samples := [Sample(0, la, lo), Sample(3 * minute, la, lo), Sample(6 * minute, la, lo), Sample(9 * minute, la, lo)];
    assert Openers(samples, 2) == [0];
    assert Openers(samples, 3) == [0, 2];
  }
}
