/** The debounced deviation alerts of `trackLocation` (services/ride/src/ride/ride.service.ts), with the window that
    services/ride/src/ride/redis-state.service.ts keeps between samples. */
module DeviationWindow {
  import opened Common

  const SUSTAINED := 20000

  // ---- One debounced threshold ----

  /** A sample as one threshold sees it; `blocked` says that another alert takes this sample's turn. */
  datatype Tick = Tick(at: int, over: bool, blocked: bool)

  function Track(since: Option<int>, t: Tick): Option<int> {
    if !t.over then None else if since.None? then Some(t.at) else since
  }

  /** A start of 0 counts as no start: the source tests it with `!!`. */
  predicate Due(since: Option<int>, at: int) { since.Some? && since.value != 0 && at - since.value >= SUSTAINED }

  predicate FiresAfter(since: Option<int>, t: Tick) { Due(Track(since, t), t.at) && !t.blocked }

  function Since(ts: seq<Tick>): Option<int> {
    if ts == [] then None
    else
      var since, t := Since(ts[..|ts| - 1]), ts[|ts| - 1];
      if FiresAfter(since, t) then Some(t.at) else Track(since, t)
  }

  predicate Fires(ts: seq<Tick>, k: nat)
    requires k < |ts|
  {
    FiresAfter(Since(ts[..k]), ts[k])
  }

  predicate Ordered(ts: seq<Tick>) {
    && (forall i :: 0 <= i < |ts| ==> ts[i].at > 0)
    && (forall i, j :: 0 <= i < j < |ts| ==> ts[i].at <= ts[j].at)
  }

  /** Over the threshold from `j` through `k`, those two at least 20 s apart, without firing strictly between them. */
  ghost predicate Span(at: seq<int>, over: seq<bool>, fired: seq<bool>, j: nat, k: nat)
    requires |at| == |over| == |fired|
  {
    && j < k < |at| && at[k] - at[j] >= 20000
    && (forall i :: j <= i <= k ==> over[i]) && (forall i :: j < i < k ==> !fired[i])
  }

  ghost predicate Pending(ts: seq<Tick>, j: nat, k: nat)
    requires k <= |ts|
  {
    j < k && (forall i :: j <= i < k ==> ts[i].over) && (forall i :: j < i < k ==> !Fires(ts, i))
  }

  function Times(ts: seq<Tick>): (r: seq<int>)
    ensures |r| == |ts|
  {
    seq(|ts|, i requires 0 <= i < |ts| => ts[i].at)
  }

  function Overs(ts: seq<Tick>): (r: seq<bool>)
    ensures |r| == |ts|
  {
    seq(|ts|, i requires 0 <= i < |ts| => ts[i].over)
  }

  function Fired(ts: seq<Tick>): (r: seq<bool>)
    ensures |r| == |ts|
  {
    seq(|ts|, i requires 0 <= i < |ts| => Fires(ts, i))
  }

  lemma SinceStep(ts: seq<Tick>, k: nat)
    requires k < |ts|
    ensures Since(ts[..k + 1]) == if Fires(ts, k) then Some(ts[k].at) else Track(Since(ts[..k]), ts[k])
  {
    assert ts[..k + 1][..k] == ts[..k];
  }

  /** The stored start is the time of a sample from which the threshold was exceeded without a firing since. */
  lemma {:induction false} SinceHasStart(ts: seq<Tick>, k: nat) returns (j: nat)
    requires 0 < k <= |ts| && Since(ts[..k]).Some?
    ensures Pending(ts, j, k) && Since(ts[..k]).value == ts[j].at
    decreases k
  {
    SinceStep(ts, k - 1);
    if Fires(ts, k - 1) || Since(ts[..k - 1]).None? {
      j := k - 1;
    } else {
      j := SinceHasStart(ts, k - 1);
    }
  }

  /** Conversely such a sample keeps the stored start from being later than it. */
  lemma {:induction false} StartKeepsSince(ts: seq<Tick>, j: nat, k: nat)
    requires Ordered(ts) && j < k <= |ts| && Pending(ts, j, k)
    ensures Since(ts[..k]).Some? && 0 < Since(ts[..k]).value <= ts[j].at
    decreases k
  {
    SinceStep(ts, k - 1);
    if j == k - 1 {
      if Since(ts[..k - 1]).Some? { var i := SinceHasStart(ts, k - 1); }
    } else {
      StartKeepsSince(ts, j, k - 1);
    }
  }

  /** Exactly when an alert fires: its turn is not taken, and the threshold has been exceeded by every sample since one
      at least 20 s ago, with no firing after that one. */
  lemma FiresExactly(ts: seq<Tick>, k: nat)
    requires Ordered(ts) && k < |ts|
    ensures Fires(ts, k) <==> !ts[k].blocked && exists j: nat :: Span(Times(ts), Overs(ts), Fired(ts), j, k)
  {
    if Fires(ts, k) {
      var j := SinceHasStart(ts, k);
      assert Span(Times(ts), Overs(ts), Fired(ts), j, k);
    }
    if j: nat :| Span(Times(ts), Overs(ts), Fired(ts), j, k) {
      assert forall i :: 0 <= i < |ts| ==> Overs(ts)[i] == ts[i].over && Fired(ts)[i] == Fires(ts, i);
      StartKeepsSince(ts, j, k);
    }
  }

  lemma {:induction false} SinceNotBefore(ts: seq<Tick>, k: nat, m: nat)
    requires Ordered(ts) && k < m <= |ts| && Fires(ts, k)
    ensures Since(ts[..m]).Some? ==> Since(ts[..m]).value >= ts[k].at
    decreases m
  {
    SinceStep(ts, m - 1);
    if m - 1 > k { SinceNotBefore(ts, k, m - 1); }
  }

  lemma FiringsApart(ts: seq<Tick>, k: nat, m: nat)
    requires Ordered(ts) && k < m < |ts| && Fires(ts, k) && Fires(ts, m)
    ensures ts[m].at - ts[k].at >= 20000
  {
    SinceNotBefore(ts, k, m);
  }

  // ---- The window of one trip: both thresholds and the count of major firings ----

  datatype Sample = Sample(at: int, meters: real)

  datatype Alert = Major(count: nat) | Repeated(count: nat) | Minor

  datatype Window = Window(over700Since: Option<int>, over300Since: Option<int>, majorCount: nat)

  function FreshWindow(): Window { Window(None, None, 0) }

  function MajorTick(s: Sample): Tick { Tick(s.at, s.meters > 700.0, false) }
  function MinorTick(s: Sample, major: bool): Tick { Tick(s.at, s.meters > 300.0, major) }

  function Observe(w: Window, s: Sample): Window {
    var since700, since300 := Track(w.over700Since, MajorTick(s)), Track(w.over300Since, MinorTick(s, false));
    if Due(since700, s.at) then Window(Some(s.at), since300, w.majorCount + 1)
    else if Due(since300, s.at) then Window(since700, Some(s.at), w.majorCount)
    else Window(since700, since300, w.majorCount)
  }

  function Raised(w: Window, s: Sample): seq<Alert> {
    if FiresAfter(w.over700Since, MajorTick(s)) then
      var count := w.majorCount + 1;
      if count >= 2 then [Major(count), Repeated(count)] else [Major(count)]
    else if FiresAfter(w.over300Since, MinorTick(s, false)) then [Minor]
    else []
  }

  class Tracker {
    var window: Window
    var alerts: seq<Alert>

    constructor ()
      ensures window == FreshWindow() && alerts == []
    {
      window, alerts := Window(None, None, 0), [];
    }

    /** Lines 1233-1292, with the alerts instead of their rows. */
    method Track(s: Sample)
      modifies this
      ensures window == Observe(old(window), s)
      ensures alerts == old(alerts) + Raised(old(window), s)
    {
      if s.meters > 700.0 {
        if window.over700Since.None? { window := window.(over700Since := Some(s.at)); }
      } else {
        window := window.(over700Since := None);
      }
      if s.meters > 300.0 {
        if window.over300Since.None? { window := window.(over300Since := Some(s.at)); }
      } else {
        window := window.(over300Since := None);
      }
      var since700, since300 := window.over700Since, window.over300Since;
      var over700For20s := since700.Some? && since700.value != 0 && s.at - since700.value >= SUSTAINED;
      var over300For20s := since300.Some? && since300.value != 0 && s.at - since300.value >= SUSTAINED;
      if over700For20s {
        window := window.(majorCount := window.majorCount + 1);
        alerts := alerts + [Major(window.majorCount)];
        if window.majorCount >= 2 { alerts := alerts + [Repeated(window.majorCount)]; }
        window := window.(over700Since := Some(s.at));
      } else if over300For20s {
        alerts := alerts + [Minor];
        window := window.(over300Since := Some(s.at));
      }
    }
  }

  // ---- Whole sample streams ----

  function After(samples: seq<Sample>): Window {
    if samples == [] then FreshWindow() else Observe(After(samples[..|samples| - 1]), samples[|samples| - 1])
  }

  function Alerts(samples: seq<Sample>): seq<Alert> {
    if samples == [] then []
    else Alerts(samples[..|samples| - 1]) + Raised(After(samples[..|samples| - 1]), samples[|samples| - 1])
  }

  predicate MajorFires(samples: seq<Sample>, k: nat)
    requires k < |samples|
  {
    FiresAfter(After(samples[..k]).over700Since, MajorTick(samples[k]))
  }

  predicate MinorFires(samples: seq<Sample>, k: nat)
    requires k < |samples|
  {
    FiresAfter(After(samples[..k]).over300Since, MinorTick(samples[k], MajorFires(samples, k)))
  }

  function MajorTicks(samples: seq<Sample>): (ts: seq<Tick>)
    ensures |ts| == |samples|
  {
    seq(|samples|, i requires 0 <= i < |samples| => MajorTick(samples[i]))
  }

  function MinorTicks(samples: seq<Sample>): (ts: seq<Tick>)
    ensures |ts| == |samples|
  {
    seq(|samples|, i requires 0 <= i < |samples| => MinorTick(samples[i], MajorFires(samples, i)))
  }

  /** The window is the pair of the two debounced thresholds, the minor one blocked wherever the major one fires. */
  lemma {:induction false} WindowIsTwoThresholds(samples: seq<Sample>, k: nat)
    requires k <= |samples|
    ensures After(samples[..k]).over700Since == Since(MajorTicks(samples)[..k])
    ensures After(samples[..k]).over300Since == Since(MinorTicks(samples)[..k])
    decreases k
  {
    if k > 0 {
      WindowIsTwoThresholds(samples, k - 1);
      assert samples[..k][..k - 1] == samples[..k - 1];
      SinceStep(MajorTicks(samples), k - 1);
      SinceStep(MinorTicks(samples), k - 1);
    }
  }

  predicate InOrder(samples: seq<Sample>) {
    && (forall i :: 0 <= i < |samples| ==> samples[i].at > 0)
    && (forall i, j :: 0 <= i < j < |samples| ==> samples[i].at <= samples[j].at)
  }

  function SampleTimes(samples: seq<Sample>): (r: seq<int>)
    ensures |r| == |samples|
  {
    seq(|samples|, i requires 0 <= i < |samples| => samples[i].at)
  }

  function Over(samples: seq<Sample>, meters: real): (r: seq<bool>)
    ensures |r| == |samples|
  {
    seq(|samples|, i requires 0 <= i < |samples| => samples[i].meters > meters)
  }

  function MajorFired(samples: seq<Sample>): (r: seq<bool>)
    ensures |r| == |samples|
  {
    seq(|samples|, i requires 0 <= i < |samples| => MajorFires(samples, i))
  }

  function MinorFired(samples: seq<Sample>): (r: seq<bool>)
    ensures |r| == |samples|
  {
    seq(|samples|, i requires 0 <= i < |samples| => MinorFires(samples, i))
  }

  lemma TicksAgree(samples: seq<Sample>, k: nat)
    requires k < |samples|
    ensures MajorFires(samples, k) == Fires(MajorTicks(samples), k)
    ensures MinorFires(samples, k) == Fires(MinorTicks(samples), k)
    ensures MajorTicks(samples)[k] == MajorTick(samples[k])
    ensures MinorTicks(samples)[k] == MinorTick(samples[k], MajorFires(samples, k))
  {
    WindowIsTwoThresholds(samples, k);
  }

  lemma ViewsAgree(samples: seq<Sample>)
    ensures Times(MajorTicks(samples)) == SampleTimes(samples) == Times(MinorTicks(samples))
    ensures Overs(MajorTicks(samples)) == Over(samples, 700.0) && Overs(MinorTicks(samples)) == Over(samples, 300.0)
    ensures Fired(MajorTicks(samples)) == MajorFired(samples) && Fired(MinorTicks(samples)) == MinorFired(samples)
  {
    forall i | 0 <= i < |samples|
      ensures Fired(MajorTicks(samples))[i] == MajorFired(samples)[i] && Fired(MinorTicks(samples))[i] == MinorFired(samples)[i]
    {
      TicksAgree(samples, i);
    }
  }

  /** A major alert fires exactly when every sample since one at least 20 s old was over 700 m and no major alert fired
      after that sample. */
  lemma MajorFiresExactly(samples: seq<Sample>, k: nat)
    requires InOrder(samples) && k < |samples|
    ensures MajorFires(samples, k)
            <==> exists j: nat :: Span(SampleTimes(samples), Over(samples, 700.0), MajorFired(samples), j, k)
  {
    TicksOrdered(samples);
    TicksAgree(samples, k);
    ViewsAgree(samples);
    FiresExactly(MajorTicks(samples), k);
  }

  /** The minor alert likewise, at 300 m, and only where no major alert fires. */
  lemma MinorFiresExactly(samples: seq<Sample>, k: nat)
    requires InOrder(samples) && k < |samples|
    ensures MinorFires(samples, k)
            <==> !MajorFires(samples, k)
                 && exists j: nat :: Span(SampleTimes(samples), Over(samples, 300.0), MinorFired(samples), j, k)
  {
    TicksOrdered(samples);
    TicksAgree(samples, k);
    ViewsAgree(samples);
    FiresExactly(MinorTicks(samples), k);
  }

  lemma TicksOrdered(samples: seq<Sample>)
    requires InOrder(samples)
    ensures Ordered(MajorTicks(samples)) && Ordered(MinorTicks(samples))
  {
  }

  /** Alerts of one kind are at least 20 s apart. */
  lemma AlertsApart(samples: seq<Sample>, k: nat, m: nat)
    requires InOrder(samples) && k < m < |samples|
    requires (MajorFires(samples, k) && MajorFires(samples, m)) || (MinorFires(samples, k) && MinorFires(samples, m))
    ensures samples[m].at - samples[k].at >= 20000
  {
    TicksOrdered(samples);
    TicksAgree(samples, k);
    TicksAgree(samples, m);
    if MajorFires(samples, k) && MajorFires(samples, m) {
      FiringsApart(MajorTicks(samples), k, m);
    } else {
      FiringsApart(MinorTicks(samples), k, m);
    }
  }

  function CountMajor(alerts: seq<Alert>): nat {
    if alerts == [] then 0 else CountMajor(alerts[..|alerts| - 1]) + (if alerts[|alerts| - 1].Minor? then 0 else 1)
  }

  lemma {:induction false} CountMajorConcat(a: seq<Alert>, b: seq<Alert>)
    ensures CountMajor(a + b) == CountMajor(a) + CountMajor(b)
    decreases |b|
  {
    if b == [] {
      assert a + b == a;
    } else {
      assert (a + b)[..|a + b| - 1] == a + b[..|b| - 1];
      CountMajorConcat(a, b[..|b| - 1]);
    }
  }

  function Firings(samples: seq<Sample>): nat {
    if samples == [] then 0
    else Firings(samples[..|samples| - 1]) + (if MajorFires(samples, |samples| - 1) then 1 else 0)
  }

  lemma CountRaised(w: Window, s: Sample)
    ensures CountMajor(Raised(w, s))
         == if !FiresAfter(w.over700Since, MajorTick(s)) then 0 else if w.majorCount == 0 then 1 else 2
  {
    var count := w.majorCount + 1;
    assert [Major(count), Repeated(count)][..1] == [Major(count)];
    assert [Major(count)][..0] == [] && CountMajor([Major(count)]) == 1 && CountMajor([Minor]) == 0;
  }

  /** Each major firing after the first raises the repeated alert as well: m firings make 2m - 1 major alerts. */
  lemma {:induction false} MajorAlertCount(samples: seq<Sample>)
    ensures
      var m := Firings(samples);
      After(samples).majorCount == m && CountMajor(Alerts(samples)) == if m == 0 then 0 else 2 * m - 1
  {
    if samples != [] {
      var init, last := samples[..|samples| - 1], samples[|samples| - 1];
      MajorAlertCount(init);
      CountRaised(After(init), last);
      CountMajorConcat(Alerts(init), Raised(After(init), last));
    }
  }
}
