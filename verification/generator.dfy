/** The sequential generator: one module-level loop over servers 1..NUM_SERVERS
    whose day and 30-second loops append every row to the one list `data`.
    All servers draw from one value stream, so server `i + 1` reads it from
    where server `i` left it. */
module Generator {
  import opened Metrics
  import opened GenAsync
  import Decimal

  /** The constants the source is configured with: 1000 servers, 30 days from
      2024-01-01 (1704067200 seconds after 1970-01-01, as a naive datetime). */
  const SourceConfig := Config(1000, 1704067200, 30)

  /** Where the shared value stream stands when server `i + 1` starts: one
      draw per row generated for the servers before it. */
  function StreamPosition(skips: seq<seq<bool>>, i: nat): nat
    requires i <= |skips|
  {
    RowsPerDay * TotalKept(skips[..i])
  }

  /** What each server contributes to `data`, in id order. */
  function SequentialResults(cfg: Config, skips: seq<seq<bool>>, draws: nat -> Sample): seq<seq<Row>>
    requires |skips| == cfg.numServers
  {
    seq(cfg.numServers, i requires 0 <= i < cfg.numServers =>
      ServerRows(i + 1, cfg.start, skips[i], draws, StreamPosition(skips, i)))
  }

  /** The body of the script's loop over servers: the day and 30-second
      loops of server `serverId`, appending to `data` and reading the shared
      value stream at `pos`. Rows already in `data` are left as they are. */
  method AppendServer(cfg: Config, serverId: nat, days: seq<bool>, draws: nat -> Sample, data: seq<Row>, pos: nat)
    returns (data': seq<Row>, pos': nat)
    requires |days| == cfg.numDays
    ensures data' == data + ServerRows(serverId, cfg.start, days, draws, pos)
    ensures pos' == pos + |data'| - |data|
  {
    var hostName := HostName(serverId);
    data', pos' := data, pos;
    ghost var added: seq<Row> := [];
    for dayOffset := 0 to cfg.numDays
      invariant added == ServerRows(serverId, cfg.start, days[..dayOffset], draws, pos)
      invariant data' == data + added
      invariant pos' == pos + |added|
    {
      assert days[..dayOffset + 1][..dayOffset] == days[..dayOffset];
      var currentDay := cfg.start + SecondsPerDay * dayOffset;
      if days[dayOffset] {
        continue;
      }
      ghost var before := added;
      ghost var day := DayRows(serverId, cfg.start, dayOffset, draws, pos');
      var time := currentDay;
      while time < currentDay + SecondsPerDay
        invariant |before| <= |added| <= |before| + RowsPerDay
        invariant time == currentDay + Interval * (|added| - |before|)
        invariant added == before + day[..|added| - |before|]
        invariant data' == data + added
        invariant pos' == pos + |added|
        decreases currentDay + SecondsPerDay - time
      {
        var sample := draws(pos');
        pos' := pos' + 1;
        var row := Row(time, hostName, sample.cpu, sample.mem);
        data' := data' + [row];
        added := added + [row];
        time := time + Interval;
      }
      assert day[..RowsPerDay] == day;
    }
    assert days[..cfg.numDays] == days;
  }

  /** The script's loop over servers 1..NUM_SERVERS, up to the point where
      `data` is handed to the CSV writer. `skips[i][d]` is the skip draw of
      server `i + 1` on day `d`; `draws` is the value stream, read from its
      start. */
  method Generate(cfg: Config, skips: seq<seq<bool>>, draws: nat -> Sample) returns (data: seq<Row>)
    requires |skips| == cfg.numServers
    requires forall i :: 0 <= i < |skips| ==> |skips[i]| == cfg.numDays
    ensures data == Flatten(SequentialResults(cfg, skips, draws))
  {
    ghost var results := SequentialResults(cfg, skips, draws);
    data := [];
    var pos: nat := 0;
    for serverId := 1 to cfg.numServers + 1
      invariant data == Flatten(results[..serverId - 1])
      invariant pos == |data| == StreamPosition(skips, serverId - 1)
    {
      data, pos := AppendServer(cfg, serverId, skips[serverId - 1], draws, data, pos);
      ServerAppended(cfg, skips, draws, serverId - 1);
    }
    assert results[..cfg.numServers] == results;
  }

  /** Finishing server `i + 1` appends its list and advances the shared
      stream by one draw per appended row. */
  lemma ServerAppended(cfg: Config, skips: seq<seq<bool>>, draws: nat -> Sample, i: nat)
    requires |skips| == cfg.numServers && i < cfg.numServers
    ensures var results := SequentialResults(cfg, skips, draws);
      Flatten(results[..i + 1]) == Flatten(results[..i]) + results[i] &&
      StreamPosition(skips, i + 1) == StreamPosition(skips, i) + |results[i]|
  {
    var results := SequentialResults(cfg, skips, draws);
    assert results[..i + 1] == results[..i] + [results[i]];
    FlattenAppend(results[..i], [results[i]]);
    assert Flatten([results[i]]) == results[i] + Flatten([]);
    ServerRowsLength(i + 1, cfg.start, skips[i], draws, StreamPosition(skips, i));
    assert skips[..i + 1][..i] == skips[..i];
  }

  lemma SequentialResultsShape(cfg: Config, skips: seq<seq<bool>>, draws: nat -> Sample)
    requires |skips| == cfg.numServers
    ensures ServerBlocks(skips, SequentialResults(cfg, skips, draws))
  {
    var blocks := SequentialResults(cfg, skips, draws);
    forall i | 0 <= i < |blocks|
      ensures |blocks[i]| == RowsPerDay * Kept(skips[i]) && forall r: Row :: r in blocks[i] ==> r.host == HostName(i + 1)
    {
      ServerRowsShape(i + 1, cfg.start, skips[i], draws, StreamPosition(skips, i));
    }
  }

  /** With an in-range value stream, every row of `data` has cpu and mem in
      range. */
  lemma GenerateInRange(cfg: Config, skips: seq<seq<bool>>, draws: nat -> Sample)
    requires |skips| == cfg.numServers
    requires forall n :: SampleInRange(draws(n))
    ensures forall r :: r in Flatten(SequentialResults(cfg, skips, draws)) ==> RowInRange(r)
  {
    var results := SequentialResults(cfg, skips, draws);
    var out := Flatten(results);
    forall r | r in out ensures RowInRange(r) {
      var p :| 0 <= p < |out| && out[p] == r;
      var i := BlockOf(results, p);
      FlattenAt(results, i, p - Offset(results, i));
      ServerRowsInRange(i + 1, cfg.start, skips[i], draws, StreamPosition(skips, i));
      assert r in results[i];
    }
  }

  /** The two scripts build the same rows: when server `i + 1`'s own stream
      in the parallel version delivers what the shared stream delivers from
      where server `i + 1` starts reading it, the per-server lists agree, and
      so do the flattened outputs. */
  lemma SequentialMatchesParallel(cfg: Config, skips: seq<seq<bool>>, draws: nat -> Sample, serverDraws: seq<nat -> Sample>)
    requires |skips| == cfg.numServers && |serverDraws| == cfg.numServers
    requires forall i: nat, n: nat :: i < |serverDraws| ==> serverDraws[i](n) == draws(StreamPosition(skips, i) + n)
    ensures SequentialResults(cfg, skips, draws) == ParallelResults(cfg, skips, serverDraws)
    ensures Flatten(SequentialResults(cfg, skips, draws)) == Flatten(ParallelResults(cfg, skips, serverDraws))
  {
    var seqResults := SequentialResults(cfg, skips, draws);
    var parResults := ParallelResults(cfg, skips, serverDraws);
    forall i | 0 <= i < cfg.numServers ensures seqResults[i] == parResults[i] {
      var b := StreamPosition(skips, i);
      assert forall n: nat :: n >= 0 ==> serverDraws[i](n) == draws(n - 0 + b);
      ServerRowsStream(i + 1, cfg.start, skips[i], serverDraws[i], 0, draws, b);
    }
  }

  /** With every skip draw false `data` holds NUM_SERVERS * NUM_DAYS * 2880
      rows; with every one true it is empty. */
  lemma GenerateExtremes(cfg: Config, skips: seq<seq<bool>>, draws: nat -> Sample)
    requires |skips| == cfg.numServers
    requires forall i :: 0 <= i < |skips| ==> |skips[i]| == cfg.numDays
    ensures (forall i, d :: 0 <= i < |skips| && 0 <= d < cfg.numDays ==> !skips[i][d]) ==>
      |Flatten(SequentialResults(cfg, skips, draws))| == RowsPerDay * (cfg.numServers * cfg.numDays)
    ensures (forall i, d :: 0 <= i < |skips| && 0 <= d < cfg.numDays ==> skips[i][d]) ==>
      |Flatten(SequentialResults(cfg, skips, draws))| == 0
  {
    SequentialResultsShape(cfg, skips, draws);
    OutputLength(skips, SequentialResults(cfg, skips, draws));
    TotalKeptExtremes(skips, cfg.numDays);
  }

  /** The script's own configuration, with no day skipped: 86,400,000 rows. */
  lemma SourceConfigRowCount(skips: seq<seq<bool>>, draws: nat -> Sample)
    requires |skips| == SourceConfig.numServers
    requires forall i :: 0 <= i < |skips| ==> |skips[i]| == SourceConfig.numDays
    requires forall i, d :: 0 <= i < |skips| && 0 <= d < SourceConfig.numDays ==> !skips[i][d]
    ensures |Flatten(SequentialResults(SourceConfig, skips, draws))| == 86400000
  {
    GenerateExtremes(SourceConfig, skips, draws);
  }

  /** Two servers, one day from 2024-01-01, nothing skipped: 5760 rows,
      `host_1`'s 2880 from midnight to 23:59:30, then `host_2`'s. */
  lemma TwoServersOneDay(draws: nat -> Sample)
    ensures var cfg := Config(2, 1704067200, 1);
      var data := Flatten(SequentialResults(cfg, [[false], [false]], draws));
      |data| == 5760 &&
      data[0] == Row(1704067200, "host_1", draws(0).cpu, draws(0).mem) &&
      data[2879].time == 1704067200 + 86370 && data[2879].host == "host_1" &&
      data[2880] == Row(1704067200, "host_2", draws(2880).cpu, draws(2880).mem)
  {
    var cfg := Config(2, 1704067200, 1);
    var skips := [[false], [false]];
    var results := SequentialResults(cfg, skips, draws);
    assert [false][..0] == [] && skips[..0] == [] && skips[..1] == [[false]];
    assert StreamPosition(skips, 1) == RowsPerDay;
    var day1, day2 := DayRows(1, cfg.start, 0, draws, 0), DayRows(2, cfg.start, 0, draws, RowsPerDay);
    assert ServerRows(1, cfg.start, [false], draws, 0) == [] + day1;
    assert ServerRows(2, cfg.start, [false], draws, RowsPerDay) == [] + day2;
    assert results[0] == day1 && results[1] == day2;
    assert results == [day1, day2];
    assert Flatten(results) == day1 + day2 by {
      assert results[1..] == [day2] && results[1..][1..] == [];
      assert Flatten([day2]) == day2 + [];
    }
    assert Decimal.NatToString(1) == "1" && Decimal.NatToString(2) == "2";
    assert HostName(1) == "host_1" && HostName(2) == "host_2";
    var data := day1 + day2;
    assert |data| == 5760;
    assert data[0] == day1[0] == Row(1704067200, "host_1", draws(0).cpu, draws(0).mem);
    assert data[2879] == day1[2879] && day1[2879].time == 1704067200 + 86370;
    assert data[2880] == day2[0] == Row(1704067200, "host_2", draws(2880).cpu, draws(2880).mem);
  }
}
