/** The data model shared by both generators, and the specification of the
    rows one server receives over the whole date range.

    Times are whole seconds. The source works on naive datetimes, so every
    day is exactly 86400 seconds long and day `d` starts at
    `start + 86400 * d`. The random sources are inputs: one skip flag per
    attempted day (true when the draw fell below the missing-data
    probability), and the stream of value draws as a total function from
    stream position to sample. */
module Metrics {
  import Decimal

  const SecondsPerDay: int := 86400
  /** TIME_INTERVAL, 30 seconds. */
  const Interval: int := 30
  /** The number of 30-second boundaries in one day. */
  const RowsPerDay: int := 2880

  /** The configuration constants of the generator: NUM_SERVERS, START_DATE
      (as seconds of its midnight) and NUM_DAYS. MISSING_DATA_PROB only shows
      through the skip flags. */
  datatype Config = Config(numServers: nat, start: int, numDays: nat)

  /** One draw of the value source: the CPU and memory percentages, each
      already rounded to two decimals and written in hundredths. */
  datatype Sample = Sample(cpu: int, mem: int)

  /** A generated row `[time, host_name, cpu_used, mem_used]`. */
  datatype Row = Row(time: int, host: string, cpu: int, mem: int)

  /** What `round(uniform(10, 90), 2)` and `round(uniform(20, 95), 2)` can yield. */
  predicate SampleInRange(s: Sample) {
    1000 <= s.cpu <= 9000 && 2000 <= s.mem <= 9500
  }

  predicate RowInRange(r: Row) {
    SampleInRange(Sample(r.cpu, r.mem))
  }

  /** `f"host_{server_id}"`. */
  function HostName(id: nat): (name: string)
    ensures |name| > 5 && name[..5] == "host_"
    ensures Decimal.AllDigits(name[5..]) && Decimal.DigitsValue(name[5..]) == id
    ensures name[5] == '0' <==> id == 0
  {
    Decimal.NatToStringRoundTrip(id);
    assert ("host_" + Decimal.NatToString(id))[5..] == Decimal.NatToString(id);
    "host_" + Decimal.NatToString(id)
  }

  lemma HostNameInjective(a: nat, b: nat)
    ensures HostName(a) == HostName(b) <==> a == b
  {
    if HostName(a) == HostName(b) {
      assert HostName(a)[5..] == Decimal.NatToString(a);
      assert HostName(b)[5..] == Decimal.NatToString(b);
      Decimal.NatToStringInjective(a, b);
    }
  }

  /** The `slot`-th 30-second boundary of day `day` of the window. */
  function SlotTime(start: int, day: nat, slot: nat): int {
    start + SecondsPerDay * day + Interval * slot
  }

  /** `t` is a 30-second boundary at or after `midnight` and before the next midnight. */
  predicate OnDayGrid(midnight: int, t: int) {
    midnight <= t < midnight + SecondsPerDay && (t - midnight) % Interval == 0
  }

  /** The rows of one included day: one per 30-second boundary from the
      day's midnight, the `k`-th taking its values from stream position
      `base + k`. */
  function DayRows(id: nat, start: int, day: nat, draws: nat -> Sample, base: nat): seq<Row> {
    seq(RowsPerDay, k requires 0 <= k => Row(SlotTime(start, day, k), HostName(id), draws(base + k).cpu, draws(base + k).mem))
  }

  /** An included day has 2880 rows, from midnight to 30 seconds before the
      next midnight, each on a 30-second boundary of that day. */
  lemma DayRowsOnGrid(id: nat, start: int, day: nat, draws: nat -> Sample, base: nat)
    ensures var rows := DayRows(id, start, day, draws, base);
      var midnight := start + SecondsPerDay * day;
      |rows| == RowsPerDay &&
      rows[0].time == midnight &&
      rows[RowsPerDay - 1].time == midnight + SecondsPerDay - Interval &&
      forall k :: 0 <= k < |rows| ==> OnDayGrid(midnight, rows[k].time)
  {
    var rows := DayRows(id, start, day, draws, base);
    var midnight := start + SecondsPerDay * day;
    forall k | 0 <= k < |rows| ensures OnDayGrid(midnight, rows[k].time) {
      assert rows[k].time - midnight == Interval * k;
    }
  }

  /** Every 30-second boundary from midnight up to, and not including, the
      next midnight has its row. */
  lemma DayRowsCoverDay(id: nat, start: int, day: nat, draws: nat -> Sample, base: nat, t: int)
    requires OnDayGrid(start + SecondsPerDay * day, t)
    ensures var k := (t - start - SecondsPerDay * day) / Interval;
      0 <= k < RowsPerDay && DayRows(id, start, day, draws, base)[k].time == t
  {
    var midnight := start + SecondsPerDay * day;
    var k := (t - midnight) / Interval;
    assert t - midnight == Interval * k;
  }

  /** The number of days that are not skipped. */
  function Kept(skips: seq<bool>): nat {
    if skips == [] then 0
    else Kept(skips[..|skips| - 1]) + (if skips[|skips| - 1] then 0 else 1)
  }

  lemma {:induction false} KeptBound(skips: seq<bool>)
    ensures Kept(skips) <= |skips|
    ensures Kept(skips) == |skips| <==> forall d :: 0 <= d < |skips| ==> !skips[d]
    ensures Kept(skips) == 0 <==> forall d :: 0 <= d < |skips| ==> skips[d]
  {
    if skips != [] {
      var n := |skips| - 1;
      KeptBound(skips[..n]);
      assert forall d :: 0 <= d < n ==> skips[..n][d] == skips[d];
    }
  }

  /** The number of included (server, day) pairs over a list of servers. */
  function TotalKept(skips: seq<seq<bool>>): nat {
    if skips == [] then 0 else TotalKept(skips[..|skips| - 1]) + Kept(skips[|skips| - 1])
  }

  /** All pairs included: `servers * days` of them; all skipped: none. */
  lemma {:induction false} TotalKeptExtremes(skips: seq<seq<bool>>, days: nat)
    requires forall i :: 0 <= i < |skips| ==> |skips[i]| == days
    ensures (forall i, d :: 0 <= i < |skips| && 0 <= d < days ==> !skips[i][d]) ==> TotalKept(skips) == |skips| * days
    ensures (forall i, d :: 0 <= i < |skips| && 0 <= d < days ==> skips[i][d]) ==> TotalKept(skips) == 0
  {
    if skips != [] {
      var n := |skips| - 1;
      assert forall i :: 0 <= i < n ==> skips[..n][i] == skips[i];
      TotalKeptExtremes(skips[..n], days);
      KeptBound(skips[n]);
      assert (n + 1) * days == n * days + days;
    }
  }

  /** The rows `generate_server_data` builds for server `id` when the value
      stream stands at position `base`: the days in increasing order, a
      skipped day contributing nothing and an included one its DayRows. */
  function ServerRows(id: nat, start: int, skips: seq<bool>, draws: nat -> Sample, base: nat): seq<Row> {
    if skips == [] then []
    else
      var d := |skips| - 1;
      var before := ServerRows(id, start, skips[..d], draws, base);
      if skips[d] then before
      else before + DayRows(id, start, d, draws, base + |before|)
  }

  lemma {:induction false} ServerRowsLength(id: nat, start: int, skips: seq<bool>, draws: nat -> Sample, base: nat)
    ensures |ServerRows(id, start, skips, draws, base)| == RowsPerDay * Kept(skips)
  {
    if skips != [] {
      ServerRowsLength(id, start, skips[..|skips| - 1], draws, base);
    }
  }

  /** Every row of a server carries its host name and the values of the
      stream position it was generated at, in stream order. */
  lemma {:induction false} ServerRowsContent(id: nat, start: int, skips: seq<bool>, draws: nat -> Sample, base: nat, j: nat)
    requires j < |ServerRows(id, start, skips, draws, base)|
    ensures var r := ServerRows(id, start, skips, draws, base)[j];
      r.host == HostName(id) && r.cpu == draws(base + j).cpu && r.mem == draws(base + j).mem
  {
    var d := |skips| - 1;
    var before := ServerRows(id, start, skips[..d], draws, base);
    if j < |before| {
      ServerRowsContent(id, start, skips[..d], draws, base, j);
    }
  }

  /** With an in-range value source, every row is in range. */
  lemma {:induction false} ServerRowsInRange(id: nat, start: int, skips: seq<bool>, draws: nat -> Sample, base: nat)
    requires forall n :: SampleInRange(draws(n))
    ensures forall r :: r in ServerRows(id, start, skips, draws, base) ==> RowInRange(r)
  {
    var rows := ServerRows(id, start, skips, draws, base);
    forall r | r in rows ensures RowInRange(r) {
      var j :| 0 <= j < |rows| && rows[j] == r;
      ServerRowsContent(id, start, skips, draws, base, j);
      assert SampleInRange(draws(base + j));
    }
  }

  /** Every timestamp is a 30-second boundary of an included day. */
  lemma {:induction false} ServerRowsOnGrid(id: nat, start: int, skips: seq<bool>, draws: nat -> Sample, base: nat, j: nat)
    requires j < |ServerRows(id, start, skips, draws, base)|
    ensures exists d: nat, k: nat :: (d < |skips| && !skips[d] && k < RowsPerDay &&
      ServerRows(id, start, skips, draws, base)[j].time == SlotTime(start, d, k))
  {
    var d := |skips| - 1;
    var before := ServerRows(id, start, skips[..d], draws, base);
    if j < |before| {
      ServerRowsOnGrid(id, start, skips[..d], draws, base, j);
      var d': nat, k: nat :| d' < d && !skips[..d][d'] && k < RowsPerDay && before[j].time == SlotTime(start, d', k);
      assert skips[d'] == skips[..d][d'];
    } else {
      var k: nat := j - |before|;
      assert ServerRows(id, start, skips, draws, base)[j].time == SlotTime(start, d, k);
    }
  }

  /** Every timestamp lies within the window `[start, start + 86400 * days)`. */
  lemma {:induction false} ServerRowsWithinWindow(id: nat, start: int, skips: seq<bool>, draws: nat -> Sample, base: nat, j: nat)
    requires j < |ServerRows(id, start, skips, draws, base)|
    ensures start <= ServerRows(id, start, skips, draws, base)[j].time < start + SecondsPerDay * |skips|
  {
    ServerRowsOnGrid(id, start, skips, draws, base, j);
    var d: nat, k: nat :| d < |skips| && !skips[d] && k < RowsPerDay &&
      ServerRows(id, start, skips, draws, base)[j].time == SlotTime(start, d, k);
  }

  predicate StrictlyIncreasing(rows: seq<Row>) {
    forall p, q :: 0 <= p < q < |rows| ==> rows[p].time < rows[q].time
  }

  /** Timestamps strictly increase along a server's rows. */
  lemma {:induction false} ServerRowsIncreasing(id: nat, start: int, skips: seq<bool>, draws: nat -> Sample, base: nat)
    ensures StrictlyIncreasing(ServerRows(id, start, skips, draws, base))
  {
    if skips != [] {
      var d := |skips| - 1;
      var before := ServerRows(id, start, skips[..d], draws, base);
      ServerRowsIncreasing(id, start, skips[..d], draws, base);
      if !skips[d] {
        var day := DayRows(id, start, d, draws, base + |before|);
        var rows := ServerRows(id, start, skips, draws, base);
        assert rows == before + day;
        forall p, q | 0 <= p < q < |rows| ensures rows[p].time < rows[q].time {
          if q < |before| {
            assert rows[p] == before[p] && rows[q] == before[q];
            assert before[p].time < before[q].time;
          } else if p < |before| {
            assert rows[p] == before[p] && rows[q] == day[q - |before|];
            ServerRowsWithinWindow(id, start, skips[..d], draws, base, p);
            assert before[p].time < start + SecondsPerDay * d;
            assert rows[q].time == SlotTime(start, d, q - |before|) >= SlotTime(start, d, 0);
          } else {
            assert rows[p] == day[p - |before|] && rows[q] == day[q - |before|];
            assert rows[p].time == SlotTime(start, d, p - |before|);
            assert rows[q].time == SlotTime(start, d, q - |before|);
          }
        }
      }
    }
  }

  /** Rows of a shorter window are a prefix of the rows of a longer one. */
  lemma {:induction false} ServerRowsPrefix(id: nat, start: int, skips: seq<bool>, draws: nat -> Sample, base: nat, m: nat)
    requires m <= |skips|
    ensures ServerRows(id, start, skips[..m], draws, base) <= ServerRows(id, start, skips, draws, base)
    decreases |skips| - m
  {
    if m < |skips| {
      var n := |skips| - 1;
      assert skips[..n][..m] == skips[..m];
      ServerRowsPrefix(id, start, skips[..n], draws, base, m);
      var shorter := ServerRows(id, start, skips[..m], draws, base);
      var before := ServerRows(id, start, skips[..n], draws, base);
      var rows := ServerRows(id, start, skips, draws, base);
      assert before <= rows;
      assert shorter == before[..|shorter|] == rows[..|shorter|];
    } else {
      assert skips[..m] == skips;
    }
  }

  /** An included day contributes exactly its 2880 rows, one per 30-second
      boundary starting at midnight, at the position after the rows of the
      earlier included days. */
  lemma KeptDayComplete(id: nat, start: int, skips: seq<bool>, draws: nat -> Sample, base: nat, d: nat, k: nat)
    requires d < |skips| && !skips[d] && k < RowsPerDay
    ensures var rows := ServerRows(id, start, skips, draws, base);
      var at := RowsPerDay * Kept(skips[..d]) + k;
      at < |rows| && rows[at].time == SlotTime(start, d, k)
  {
    var upTo := ServerRows(id, start, skips[..d + 1], draws, base);
    assert skips[..d + 1][..d] == skips[..d];
    ServerRowsLength(id, start, skips[..d], draws, base);
    ServerRowsPrefix(id, start, skips, draws, base, d + 1);
    assert upTo[RowsPerDay * Kept(skips[..d]) + k].time == SlotTime(start, d, k);
  }

  /** A skipped day contributes no row: no timestamp lies within it. */
  lemma SkippedDayAbsent(id: nat, start: int, skips: seq<bool>, draws: nat -> Sample, base: nat, d: nat, j: nat)
    requires d < |skips| && skips[d]
    requires j < |ServerRows(id, start, skips, draws, base)|
    ensures var t := ServerRows(id, start, skips, draws, base)[j].time;
      !(SlotTime(start, d, 0) <= t < SlotTime(start, d + 1, 0))
  {
    ServerRowsOnGrid(id, start, skips, draws, base, j);
    var d': nat, k: nat :| d' < |skips| && !skips[d'] && k < RowsPerDay &&
      ServerRows(id, start, skips, draws, base)[j].time == SlotTime(start, d', k);
    assert d' != d;
    if d' < d {
      assert SlotTime(start, d', k) < SlotTime(start, d' + 1, 0) <= SlotTime(start, d, 0);
    } else {
      assert SlotTime(start, d + 1, 0) <= SlotTime(start, d', 0);
    }
  }

  /** The rows of a day depend only on the 2880 samples the stream delivers
      from where the day starts reading it. */
  lemma DayRowsStream(id: nat, start: int, day: nat, f: nat -> Sample, a: nat, g: nat -> Sample, b: nat)
    requires forall n: nat :: a <= n < a + RowsPerDay ==> f(n) == g(n - a + b)
    ensures DayRows(id, start, day, f, a) == DayRows(id, start, day, g, b)
  {
    var rows, rows' := DayRows(id, start, day, f, a), DayRows(id, start, day, g, b);
    forall k | 0 <= k < RowsPerDay ensures rows[k] == rows'[k] {
      assert f(a + k) == g(a + k - a + b);
    }
  }

  /** Timestamps do not depend on the value stream. */
  lemma {:induction false} ServerRowsTimes(id: nat, start: int, skips: seq<bool>, f: nat -> Sample, a: nat, g: nat -> Sample, b: nat, j: nat)
    requires j < |ServerRows(id, start, skips, f, a)|
    ensures |ServerRows(id, start, skips, f, a)| == |ServerRows(id, start, skips, g, b)|
    ensures ServerRows(id, start, skips, f, a)[j].time == ServerRows(id, start, skips, g, b)[j].time
  {
    ServerRowsLength(id, start, skips, f, a);
    ServerRowsLength(id, start, skips, g, b);
    var d := |skips| - 1;
    var before := ServerRows(id, start, skips[..d], f, a);
    ServerRowsLength(id, start, skips[..d], f, a);
    ServerRowsLength(id, start, skips[..d], g, b);
    if j < |before| {
      ServerRowsTimes(id, start, skips[..d], f, a, g, b, j);
    }
  }

  /** The rows of a server depend only on the samples the stream delivers
      from where it is read. */
  lemma {:induction false} ServerRowsStream(id: nat, start: int, skips: seq<bool>, f: nat -> Sample, a: nat, g: nat -> Sample, b: nat)
    requires forall n: nat :: n >= a ==> f(n) == g(n - a + b)
    ensures ServerRows(id, start, skips, f, a) == ServerRows(id, start, skips, g, b)
  {
    var rows, rows' := ServerRows(id, start, skips, f, a), ServerRows(id, start, skips, g, b);
    ServerRowsLength(id, start, skips, f, a);
    ServerRowsLength(id, start, skips, g, b);
    forall j | 0 <= j < |rows| ensures rows[j] == rows'[j] {
      ServerRowsContent(id, start, skips, f, a, j);
      ServerRowsContent(id, start, skips, g, b, j);
      ServerRowsTimes(id, start, skips, f, a, g, b, j);
      assert f(a + j) == g(a + j - a + b);
    }
  }
}
