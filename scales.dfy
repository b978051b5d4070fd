/** The load cell of mixorama/scales.py: the HX711 front end that collects
    raw readings against a read timeout, and the scale that turns their
    mean into a weight relative to its tare. The ADC and the wall clock are
    oracles: `source(n)` is the n-th raw read and `clock(n)` the n-th clock
    reading in milliseconds. */
module Scales {
  import opened Core
  import opened Util

  /** One `_read()`: False when the read fails, otherwise a raw value. */
  datatype RawRead = ReadFailed | Reading(value: int)

  /** `data not in [False, -1]`: since `0 == False` in Python, a raw 0 is
      discarded along with failed reads and -1. */
  predicate IsSample(r: RawRead) {
    r.Reading? && r.value != 0 && r.value != -1
  }

  /** The samples among some reads, in order. */
  function Samples(rs: seq<RawRead>): (xs: seq<int>)
    ensures |xs| <= |rs|
    ensures forall k :: 0 <= k < |xs| ==> xs[k] != 0 && xs[k] != -1
  {
    if rs == [] then []
    else if IsSample(rs[|rs| - 1]) then Samples(rs[..|rs| - 1]) + [rs[|rs| - 1].value]
    else Samples(rs[..|rs| - 1])
  }

  /** The reads numbered `from` up to `to`. */
  function Reads(source: nat -> RawRead, from: nat, to: nat): (rs: seq<RawRead>)
    requires from <= to
    ensures |rs| == to - from
    ensures forall k :: 0 <= k < to - from ==> rs[k] == source(from + k)
  {
    seq(to - from, k requires 0 <= k < to - from => source(from + k))
  }

  lemma ReadsExtend(source: nat -> RawRead, from: nat, to: nat)
    requires from <= to
    ensures Reads(source, from, to + 1) == Reads(source, from, to) + [source(to)]
  {
  }

  /** The clock never stands still: every reading is later than the one before. */
  ghost predicate Advancing(clock: nat -> int) {
    forall n: nat :: clock(n) < clock(n + 1)
  }

  /** What is left of the time before `deadline` at clock reading `n`. */
  function TimeLeft(clock: nat -> int, deadline: int, n: nat): nat {
    if clock(n) <= deadline then deadline - clock(n) + 1 else 0
  }

  /** The end of a collection: its result and how many reads and clock
      readings it used up. */
  datatype Gathered = Gathered(result: Result<seq<int>>, cursor: nat, ticks: nat)

  /** The loop of `get_raw_data` from reads `cursor` and clock readings
      `ticks` on, with the samples `acc` kept so far: while fewer than
      `times`, check the timeout (TimeoutError when it is out), read, and
      keep the read if it is a sample. */
  function Gather(source: nat -> RawRead, clock: nat -> int, t: Timeout, times: nat,
                  acc: seq<int>, cursor: nat, ticks: nat): Gathered
    requires Advancing(clock)
    decreases TimeLeft(clock, t.start + t.delayMs, ticks)
  {
    if |acc| >= times then Gathered(Ok(acc), cursor, ticks)
    else if TimeIsOut(t, clock(ticks)) then Gathered(Err(TimeoutError), cursor, ticks + 1)
    else
      var r := source(cursor);
      Gather(source, clock, t, times, if IsSample(r) then acc + [r.value] else acc, cursor + 1, ticks + 1)
  }

  /** What a collection promises, for one that started at read `c0` and
      has kept the samples among the reads since: it reads forward and
      checks the clock once per read (once more when it times out); a
      success holds exactly the samples among the reads since `c0`, exactly
      `times` of them, the last read made being the one that completed them;
      a TimeoutError comes from a clock reading past the deadline, with
      fewer than `times` samples read. */
  lemma {:induction false} GatherSpec(source: nat -> RawRead, clock: nat -> int, t: Timeout, times: nat,
                                      c0: nat, cursor: nat, ticks: nat)
    requires Advancing(clock) && c0 <= cursor
    requires |Samples(Reads(source, c0, cursor))| <= times
    ensures var g := Gather(source, clock, t, times, Samples(Reads(source, c0, cursor)), cursor, ticks);
      && cursor <= g.cursor
      && (g.result.Ok? ==>
            && g.ticks - ticks == g.cursor - cursor
            && g.result.value == Samples(Reads(source, c0, g.cursor))
            && |g.result.value| == times
            && (g.cursor > cursor ==> |Samples(Reads(source, c0, g.cursor - 1))| < times))
      && (g.result.Err? ==>
            && g.result.error == TimeoutError
            && g.ticks - ticks == g.cursor - cursor + 1
            && TimeIsOut(t, clock(g.ticks - 1))
            && |Samples(Reads(source, c0, g.cursor))| < times)
    decreases TimeLeft(clock, t.start + t.delayMs, ticks)
  {
    var acc := Samples(Reads(source, c0, cursor));
    if |acc| < times && !TimeIsOut(t, clock(ticks)) {
      var r := source(cursor);
      ReadsExtend(source, c0, cursor);
      var rs := Reads(source, c0, cursor + 1);
      assert rs[..|rs| - 1] == Reads(source, c0, cursor) && rs[|rs| - 1] == r;
      assert Samples(rs) == if IsSample(r) then acc + [r.value] else acc;
      assert clock(ticks) < clock(ticks + 1);
      GatherSpec(source, clock, t, times, c0, cursor + 1, ticks + 1);
    }
  }

  lemma {:induction false} SamplesAppend(a: seq<RawRead>, b: seq<RawRead>)
    ensures Samples(a + b) == Samples(a) + Samples(b)
    decreases |b|
  {
    if b == [] {
      assert a + b == a;
    } else {
      var init := b[..|b| - 1];
      SamplesAppend(a, init);
      assert (a + b)[..|a + b| - 1] == a + init;
      assert (a + b)[|a + b| - 1] == b[|b| - 1];
    }
  }

  /** A timeout that has run out fails every later collection that still
      needs a sample, before reading anything. */
  lemma OutOfTimeFailsAtOnce(source: nat -> RawRead, clock: nat -> int, t: Timeout, times: nat,
                             acc: seq<int>, cursor: nat, ticks: nat)
    requires Advancing(clock) && |acc| < times && TimeIsOut(t, clock(ticks))
    ensures Gather(source, clock, t, times, acc, cursor, ticks) == Gathered(Err(TimeoutError), cursor, ticks + 1)
  {
  }

  /** `statistics.mean` of a non-empty list of raw values. */
  function Sum(xs: seq<int>): int {
    if xs == [] then 0 else Sum(xs[..|xs| - 1]) + xs[|xs| - 1]
  }

  function Mean(xs: seq<int>): real
    requires xs != []
  {
    Sum(xs) as real / |xs| as real
  }

  lemma {:induction false} SumOfSteady(xs: seq<int>, c: int)
    requires forall k :: 0 <= k < |xs| ==> xs[k] == c
    ensures Sum(xs) == |xs| * c
  {
    if xs != [] {
      SumOfSteady(xs[..|xs| - 1], c);
    }
  }

  /** A steady load: the mean of samples that all equal `c` is `c`. */
  lemma MeanOfSteadyLoad(xs: seq<int>, c: int)
    requires xs != [] && forall k :: 0 <= k < |xs| ==> xs[k] == c
    ensures Mean(xs) == c as real
  {
    SumOfSteady(xs, c);
  }

  lemma {:induction false} SumBounds(xs: seq<int>, lo: int, hi: int)
    requires forall k :: 0 <= k < |xs| ==> lo <= xs[k] <= hi
    ensures |xs| * lo <= Sum(xs) <= |xs| * hi
  {
    if xs != [] {
      SumBounds(xs[..|xs| - 1], lo, hi);
    }
  }

  /** The mean lies between the smallest and the largest sample. */
  lemma MeanBounds(xs: seq<int>, lo: int, hi: int)
    requires xs != [] && forall k :: 0 <= k < |xs| ==> lo <= xs[k] <= hi
    ensures lo as real <= Mean(xs) <= hi as real
  {
    SumBounds(xs, lo, hi);
    var n := |xs| as real;
    assert n * lo as real <= Sum(xs) as real <= n * hi as real;
  }

  /** `value_is_in_window(v)`: strictly inside target ± target/100 * tolerance. */
  predicate InWindow(target: real, tolerance: real, v: real) {
    target - target / 100.0 * tolerance < v < target + target / 100.0 * tolerance
  }

  function Abs(x: real): real {
    if x < 0.0 then -x else x
  }

  /** The window is the open band of half-width target/100 * tolerance: a
      value is in it exactly when it is closer to the target than that, and
      the window is empty when the half-width is not positive. */
  lemma WindowIsOpenBand(target: real, tolerance: real, v: real)
    ensures InWindow(target, tolerance, v) <==> Abs(v - target) < target / 100.0 * tolerance
    ensures target / 100.0 * tolerance <= 0.0 ==> !InWindow(target, tolerance, v)
    ensures target / 100.0 * tolerance > 0.0 ==> InWindow(target, tolerance, target)
    ensures !InWindow(target, tolerance, target + target / 100.0 * tolerance)
    ensures !InWindow(target, tolerance, target - target / 100.0 * tolerance)
  {
  }

  /** The HX711 front end, with the timeout `get_raw_data` caches on the
      instance. `cursor` counts the reads made and `ticks` the clock readings
      taken. */
  class Hx711 {
    const source: nat -> RawRead
    const clock: nat -> int
    var cursor: nat
    var ticks: nat
    var cachedTimeout: Option<Timeout>

    ghost predicate Valid()
      reads this
    {
      Advancing(clock)
    }

    constructor (source: nat -> RawRead, clock: nat -> int)
      requires Advancing(clock)
      ensures Valid() && this.source == source && this.clock == clock
      ensures cursor == 0 && ticks == 0 && cachedTimeout == None
    {
      this.source := source;
      this.clock := clock;
      cursor := 0;
      ticks := 0;
      cachedTimeout := None;
    }

    /** A clock reading. */
    method Now() returns (now: int)
      modifies this`ticks
      ensures now == clock(old(ticks)) && ticks == old(ticks) + 1
    {
      now := clock(ticks);
      ticks := ticks + 1;
    }

    /** The `while len(data_list) < times` loop. */
    method Collect(times: nat, t: Timeout) returns (r: Result<seq<int>>)
      requires Valid()
      modifies this`cursor, this`ticks
      ensures var g := Gather(source, clock, t, times, [], old(cursor), old(ticks));
        r == g.result && cursor == g.cursor && ticks == g.ticks
    {
      var data: seq<int> := [];
      while |data| < times
        invariant |data| <= times
        invariant Gather(source, clock, t, times, [], old(cursor), old(ticks)) ==
                  Gather(source, clock, t, times, data, cursor, ticks)
        decreases TimeLeft(clock, t.start + t.delayMs, ticks)
      {
        assert clock(ticks) < clock(ticks + 1);
        var now := Now();
        if TimeIsOut(t, now) {
          return Err(TimeoutError);
        }
        var read := source(cursor);
        cursor := cursor + 1;
        if IsSample(read) {
          data := data + [read.value];
        }
      }
      r := Ok(data);
    }

    /** `get_raw_data(times, timeout)` as written: the timeout is made on the
        first call and reused by every later call, so its deadline is fixed
        by the first call. */
    method GetRawData(times: nat, timeoutMs: int) returns (r: Result<seq<int>>)
      requires Valid()
      modifies this
      ensures Valid() && cachedTimeout.Some?
      ensures old(cachedTimeout).Some? ==> cachedTimeout == old(cachedTimeout)
      ensures old(cachedTimeout).None? ==> cachedTimeout == Some(MakeTimeout(timeoutMs, clock(old(ticks))))
      ensures var start := if old(cachedTimeout).Some? then old(ticks) else old(ticks) + 1;
        var g := Gather(source, clock, cachedTimeout.value, times, [], old(cursor), start);
        r == g.result && cursor == g.cursor && ticks == g.ticks
    {
      if cachedTimeout.None? {
        var now := Now();
        cachedTimeout := Some(MakeTimeout(timeoutMs, now));
      }
      r := Collect(times, cachedTimeout.value);
    }

    /** `get_raw_data` with a timeout made afresh on every call, which is what
        its `timeout` parameter promises. */
    method GetRawDataPerCall(times: nat, timeoutMs: int) returns (r: Result<seq<int>>)
      requires Valid()
      modifies this`cursor, this`ticks
      ensures var g := Gather(source, clock, MakeTimeout(timeoutMs, clock(old(ticks))), times, [], old(cursor), old(ticks) + 1);
        r == g.result && cursor == g.cursor && ticks == g.ticks
    {
      var now := Now();
      r := Collect(times, MakeTimeout(timeoutMs, now));
    }
  }

  /** The defaults of `measure`'s `get_raw_data()` call. */
  const Times: nat := 5
  const ReadTimeoutMs: int := 1000

  /** The collection one `measure()` makes from read `cursor` and clock
      reading `ticks` on: a fresh timeout, then five samples. */
  function MeasureRun(source: nat -> RawRead, clock: nat -> int, cursor: nat, ticks: nat): Gathered
    requires Advancing(clock)
  {
    Gather(source, clock, MakeTimeout(ReadTimeoutMs, clock(ticks)), Times, [], cursor, ticks + 1)
  }

  /** The reads from `from` to `to` hold exactly the samples one measure takes. */
  predicate Measured(source: nat -> RawRead, from: nat, to: nat) {
    from <= to && |Samples(Reads(source, from, to))| == Times
  }

  /** The mean of those samples. */
  function MeanRead(source: nat -> RawRead, from: nat, to: nat): real
    requires Measured(source, from, to)
  {
    Mean(Samples(Reads(source, from, to)))
  }

  /** A scale: its HX711, its tare (the class attribute 0) and the abort
      event of `wait_for_weight`. */
  class Scales {
    const hx: Hx711
    var tare: real
    var abortEvent: bool

    ghost predicate Valid()
      reads this, hx
    {
      hx.Valid()
    }

    constructor (source: nat -> RawRead, clock: nat -> int)
      requires Advancing(clock)
      ensures Valid() && fresh(hx) && tare == 0.0 && !abortEvent
      ensures hx.source == source && hx.clock == clock && hx.cursor == 0 && hx.ticks == 0
    {
      hx := new Hx711(source, clock);
      tare := 0.0;
      abortEvent := false;
    }

    /** `measure()`: the mean of five samples minus the tare; a read timeout
        becomes ScalesTimeoutException. */
    method Measure() returns (r: Result<real>)
      requires Valid()
      modifies hx`cursor, hx`ticks
      ensures Valid()
      ensures var g := MeasureRun(hx.source, hx.clock, old(hx.cursor), old(hx.ticks));
        && hx.cursor == g.cursor && hx.ticks == g.ticks
        && (g.result.Ok? ==> |g.result.value| == Times && r == Ok(Mean(g.result.value) - tare))
        && (g.result.Err? ==> r == Err(ScalesTimeoutException))
      ensures old(hx.cursor) <= hx.cursor
      ensures r.Ok? ==> Measured(hx.source, old(hx.cursor), hx.cursor) && r.value == MeanRead(hx.source, old(hx.cursor), hx.cursor) - tare
    {
      ghost var t := MakeTimeout(ReadTimeoutMs, hx.clock(hx.ticks));
      ghost var c0, k0 := hx.cursor, hx.ticks;
      var raw := hx.GetRawDataPerCall(Times, ReadTimeoutMs);
      assert Reads(hx.source, c0, c0) == [];
      GatherSpec(hx.source, hx.clock, t, Times, c0, c0, k0 + 1);
      if raw.Err? {
        return Err(ScalesTimeoutException);
      }
      r := Ok(Mean(raw.value) - tare);
    }

    /** `reset()` as written: the tare becomes `measure()`, which is already
        relative to the old tare. A timeout leaves the tare as it was. */
    method Reset() returns (r: Result<real>)
      requires Valid()
      modifies this`tare, hx`cursor, hx`ticks
      ensures Valid()
      ensures var g := MeasureRun(hx.source, hx.clock, old(hx.cursor), old(hx.ticks));
        hx.cursor == g.cursor && hx.ticks == g.ticks && r.Ok? == g.result.Ok?
      ensures old(hx.cursor) <= hx.cursor
      ensures r.Ok? ==> Measured(hx.source, old(hx.cursor), hx.cursor) && tare == MeanRead(hx.source, old(hx.cursor), hx.cursor) - old(tare)
      ensures r.Err? ==> r.error == ScalesTimeoutException && tare == old(tare)
    {
      r := Measure();
      if r.Ok? {
        tare := r.value;
      }
    }

    /** `reset()` as evidently intended: the tare becomes the current raw
        load, so that `measure()` afterwards reads the load added since. */
    method ResetToCurrentLoad() returns (r: Result<real>)
      requires Valid()
      modifies this`tare, hx`cursor, hx`ticks
      ensures Valid()
      ensures var g := MeasureRun(hx.source, hx.clock, old(hx.cursor), old(hx.ticks));
        hx.cursor == g.cursor && hx.ticks == g.ticks && r.Ok? == g.result.Ok?
      ensures old(hx.cursor) <= hx.cursor
      ensures r.Ok? ==> Measured(hx.source, old(hx.cursor), hx.cursor) && tare == MeanRead(hx.source, old(hx.cursor), hx.cursor)
      ensures r.Err? ==> r.error == ScalesTimeoutException && tare == old(tare)
    {
      r := Measure();
      if r.Ok? {
        tare := r.value + tare;
      }
    }

    /** `abort_waiting_for_weight()`: sets the event, however often. */
    method AbortWaitingForWeight()
      modifies this`abortEvent
      ensures abortEvent
    {
      abortEvent := true;
    }

    /** The first step of `wait_for_weight`: clear the event. */
    method ClearAbortEvent()
      modifies this`abortEvent
      ensures !abortEvent
    {
      abortEvent := false;
    }
  }

  // ---------------------------------------------------------------------
  // What the two findings look like on a run
  // ---------------------------------------------------------------------

  /** A clock that advances 300 ms per reading and an ADC that always
      reads 5. */
  function Every300ms(n: nat): int { 300 * n }
  function SteadyFive(n: nat): RawRead { Reading(5) }

  /** As written, a second `get_raw_data(3, 1000)` on the same instance
      fails although its reads arrive as fast as the first call's: the
      first call's deadline (1000 ms) has passed by the time it starts. A
      timeout made per call lets it succeed. */
  method StaleTimeoutRun() returns (first: Result<seq<int>>, second: Result<seq<int>>, perCall: Result<seq<int>>)
    ensures first == Ok([5, 5, 5])
    ensures second == Err(TimeoutError)
    ensures perCall == Ok([5, 5, 5])
  {
    assert Advancing(Every300ms);
    var t, t2 := Timeout(0, 1000), Timeout(1200, 1000);
    assert [] + [5] == [5] && [5] + [5] == [5, 5] && [5, 5] + [5] == [5, 5, 5];
    assert forall n: nat :: IsSample(SteadyFive(n));
    assert Gather(SteadyFive, Every300ms, t, 3, [5, 5, 5], 3, 4) == Gathered(Ok([5, 5, 5]), 3, 4);
    assert Gather(SteadyFive, Every300ms, t, 3, [5, 5], 2, 3) == Gathered(Ok([5, 5, 5]), 3, 4);
    assert Gather(SteadyFive, Every300ms, t, 3, [5], 1, 2) == Gathered(Ok([5, 5, 5]), 3, 4);
    assert Gather(SteadyFive, Every300ms, t, 3, [], 0, 1) == Gathered(Ok([5, 5, 5]), 3, 4);
    assert Gather(SteadyFive, Every300ms, t, 3, [], 3, 4) == Gathered(Err(TimeoutError), 3, 5);
    assert Gather(SteadyFive, Every300ms, t2, 3, [5, 5, 5], 6, 8) == Gathered(Ok([5, 5, 5]), 6, 8);
    assert Gather(SteadyFive, Every300ms, t2, 3, [5, 5], 5, 7) == Gathered(Ok([5, 5, 5]), 6, 8);
    assert Gather(SteadyFive, Every300ms, t2, 3, [5], 4, 6) == Gathered(Ok([5, 5, 5]), 6, 8);
    assert Gather(SteadyFive, Every300ms, t2, 3, [], 3, 5) == Gathered(Ok([5, 5, 5]), 6, 8);
    var hx := new Hx711(SteadyFive, Every300ms);
    first := hx.GetRawData(3, 1000);
    second := hx.GetRawData(3, 1000);
    var hx2 := new Hx711(SteadyFive, Every300ms);
    var again := hx2.GetRawDataPerCall(3, 1000);
    perCall := hx2.GetRawDataPerCall(3, 1000);
  }

  /** A clock that advances 100 ms per reading. */
  function Every100ms(n: nat): int { 100 * n }

  /** A collection whose next reads are all samples and whose clock stays
      within the deadline for as many checks as samples are missing
      succeeds, reading exactly the missing number of times. */
  lemma {:induction false} GatherInTime(source: nat -> RawRead, clock: nat -> int, t: Timeout, times: nat,
                                        acc: seq<int>, cursor: nat, ticks: nat)
    requires Advancing(clock) && |acc| <= times
    requires forall j: nat :: cursor <= j < cursor + (times - |acc|) ==> IsSample(source(j))
    requires forall j: nat :: ticks <= j < ticks + (times - |acc|) ==> !TimeIsOut(t, clock(j))
    ensures var g := Gather(source, clock, t, times, acc, cursor, ticks);
      g.result.Ok? && g.cursor == cursor + (times - |acc|) && g.ticks == ticks + (times - |acc|)
    decreases times - |acc|
  {
    if |acc| < times {
      var r := source(cursor);
      assert IsSample(source(cursor)) && !TimeIsOut(t, clock(ticks));
      GatherInTime(source, clock, t, times, acc + [r.value], cursor + 1, ticks + 1);
    }
  }

  /** On a steady load of `c` read every 100 ms, a measure succeeds. */
  lemma SteadyMeasureSucceeds(c: int, cursor: nat, ticks: nat)
    requires c != 0 && c != -1
    ensures Advancing(Every100ms)
    ensures var g := MeasureRun((n: nat) => Reading(c), Every100ms, cursor, ticks);
      g.result.Ok? && g.cursor == cursor + Times && g.ticks == ticks + 1 + Times
  {
    var t := MakeTimeout(ReadTimeoutMs, Every100ms(ticks));
    GatherInTime((n: nat) => Reading(c), Every100ms, t, Times, [], cursor, ticks + 1);
  }

  /** Under a steady load read every 100 ms, two resets as written leave the
      tare at 0, so the next measure reports the whole load again; two
      intended resets leave it at the load. */
  method TwoResetsOnSteadyLoad(c: int) returns (asWritten: real, intended: real)
    requires c != 0 && c != -1
    ensures asWritten == 0.0
    ensures intended == c as real
  {
    var steady := (n: nat) => Reading(c);
    SteadySamples(c, steady);
    SteadyMeasureSucceeds(c, 0, 0);
    var s := new Scales(steady, Every100ms);
    var r1 := s.Reset();
    SteadyMeasureSucceeds(c, s.hx.cursor, s.hx.ticks);
    var r2 := s.Reset();
    asWritten := s.tare;
    SteadyMeasureSucceeds(c, 0, 0);
    var u := new Scales(steady, Every100ms);
    var q1 := u.ResetToCurrentLoad();
    SteadyMeasureSucceeds(c, u.hx.cursor, u.hx.ticks);
    var q2 := u.ResetToCurrentLoad();
    intended := u.tare;
  }

  /** Every sample of a steady source is its value, so any five of them
      average to it. */
  lemma SteadySamples(c: int, source: nat -> RawRead)
    requires c != 0 && c != -1 && forall n: nat :: source(n) == Reading(c)
    ensures forall from: nat, to: nat :: from <= to && |Samples(Reads(source, from, to))| == Times ==>
              Mean(Samples(Reads(source, from, to))) == c as real
  {
    forall from: nat, to: nat | from <= to && |Samples(Reads(source, from, to))| == Times
      ensures Mean(Samples(Reads(source, from, to))) == c as real
    {
      var xs := Samples(Reads(source, from, to));
      SamplesOfSteady(c, Reads(source, from, to));
      MeanOfSteadyLoad(xs, c);
    }
  }

  lemma {:induction false} SamplesOfSteady(c: int, rs: seq<RawRead>)
    requires forall k :: 0 <= k < |rs| ==> rs[k] == Reading(c)
    ensures forall k :: 0 <= k < |Samples(rs)| ==> Samples(rs)[k] == c
  {
    if rs != [] {
      SamplesOfSteady(c, rs[..|rs| - 1]);
    }
  }
}
