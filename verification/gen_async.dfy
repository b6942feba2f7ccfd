/** The parallel generator: `generate_server_data` builds the rows of one
    server, `pool.map` runs it for servers 1..NUM_SERVERS and hands back the
    per-server lists in submission order, and one comprehension flattens
    them. The pool is modelled by its result: a sequential map in id order.
    Each server's value stream is an input of its own; which worker runs
    the server and where that worker's stream stands are not modelled. */
module GenAsync {
  import opened Metrics

  /** `generate_server_data(server_id)`, reading the value stream `draws`
      from position `base` and handing back the position after its last
      draw. */
  method GenerateServerData(cfg: Config, serverId: nat, skips: seq<bool>, draws: nat -> Sample, base: nat)
    returns (data: seq<Row>, next: nat)
    requires |skips| == cfg.numDays
    ensures data == ServerRows(serverId, cfg.start, skips, draws, base)
    ensures next == base + |data|
  {
    var hostName := HostName(serverId);
    data := [];
    next := base;
    for dayOffset := 0 to cfg.numDays
      invariant data == ServerRows(serverId, cfg.start, skips[..dayOffset], draws, base)
      invariant next == base + |data|
    {
      assert skips[..dayOffset + 1][..dayOffset] == skips[..dayOffset];
      var currentDay := cfg.start + SecondsPerDay * dayOffset;
      if skips[dayOffset] {
        continue;
      }
      ghost var before := data;
      ghost var day := DayRows(serverId, cfg.start, dayOffset, draws, base + |before|);
      var time := currentDay;
      while time < currentDay + SecondsPerDay
        invariant |before| <= |data| <= |before| + RowsPerDay
        invariant time == currentDay + Interval * (|data| - |before|)
        invariant data == before + day[..|data| - |before|]
        invariant next == base + |data|
        decreases currentDay + SecondsPerDay - time
      {
        var sample := draws(next);
        next := next + 1;
        data := data + [Row(time, hostName, sample.cpu, sample.mem)];
        time := time + Interval;
      }
      assert day[..RowsPerDay] == day;
    }
    assert skips[..cfg.numDays] == skips;
  }

  /** `[row for server_data in results for row in server_data]`. */
  function Flatten<T>(results: seq<seq<T>>): seq<T> {
    if results == [] then [] else results[0] + Flatten(results[1..])
  }

  lemma {:induction false} FlattenAppend<T>(a: seq<seq<T>>, b: seq<seq<T>>)
    ensures Flatten(a + b) == Flatten(a) + Flatten(b)
  {
    if a != [] {
      assert (a + b)[0] == a[0] && (a + b)[1..] == a[1..] + b;
      FlattenAppend(a[1..], b);
      assert Flatten(a + b) == a[0] + (Flatten(a[1..]) + Flatten(b));
    } else {
      assert a + b == b;
    }
  }

  /** Where the rows of list `i` start in the flattened list. */
  function Offset<T>(results: seq<seq<T>>, i: nat): nat
    requires i <= |results|
  {
    |Flatten(results[..i])|
  }

  lemma OffsetStep<T>(results: seq<seq<T>>, i: nat)
    requires i < |results|
    ensures Offset(results, i + 1) == Offset(results, i) + |results[i]|
  {
    assert results[..i + 1] == results[..i] + [results[i]];
    FlattenAppend(results[..i], [results[i]]);
    assert Flatten([results[i]]) == results[i] + Flatten([]);
  }

  lemma {:induction false} OffsetMonotone<T>(results: seq<seq<T>>, i: nat, j: nat)
    requires i <= j <= |results|
    ensures Offset(results, i) <= Offset(results, j)
    ensures i < j ==> Offset(results, i) + |results[i]| <= Offset(results, j)
    decreases j
  {
    if i < j {
      OffsetStep(results, j - 1);
      OffsetMonotone(results, i, j - 1);
      if i < j - 1 {
        OffsetStep(results, i);
      }
    }
  }

  /** Flattening keeps every element of every list, in order: element `k`
      of list `i` sits at position `Offset(results, i) + k`. */
  lemma FlattenAt<T>(results: seq<seq<T>>, i: nat, k: nat)
    requires i < |results| && k < |results[i]|
    ensures Offset(results, i) + |results[i]| <= |Flatten(results)|
    ensures Flatten(results)[Offset(results, i) + k] == results[i][k]
  {
    assert results == results[..i + 1] + results[i + 1..];
    FlattenAppend(results[..i + 1], results[i + 1..]);
    assert results[..i + 1] == results[..i] + [results[i]];
    FlattenAppend(results[..i], [results[i]]);
    assert Flatten([results[i]]) == results[i] + Flatten([]);
  }

  /** The list that position `p` of the flattened list comes from. */
  function BlockOf<T>(results: seq<seq<T>>, p: nat): (i: nat)
    requires p < |Flatten(results)|
    ensures i < |results| && Offset(results, i) <= p < Offset(results, i) + |results[i]|
    decreases |results|
  {
    if p < |results[0]| then
      assert results[..0] == [];
      0
    else
      var i := BlockOf(results[1..], p - |results[0]|);
      assert results[..i + 1] == [results[0]] + results[1..][..i];
      FlattenAppend([results[0]], results[1..][..i]);
      assert results[..i + 1][1..] == results[1..][..i];
      OffsetStep(results, i + 1);
      i + 1
  }

  /** A position of the flattened list lies in the run of no list other
      than `BlockOf`'s: the runs do not overlap. */
  lemma BlockOfUnique<T>(results: seq<seq<T>>, p: nat, j: nat)
    requires j < |results| && Offset(results, j) <= p < Offset(results, j) + |results[j]|
    ensures p < |Flatten(results)| && BlockOf(results, p) == j
  {
    FlattenAt(results, j, p - Offset(results, j));
    var i := BlockOf(results, p);
    if i < j {
      OffsetMonotone(results, i, j);
    } else if j < i {
      OffsetMonotone(results, j, i);
    }
  }

  /** The per-server result lists `pool.map` hands back: list `i` is the
      output of `generate_server_data(i + 1)` on that server's skip flags and
      on `draws[i]`, the samples its worker's stream delivers from the point
      where the server starts. */
  function ParallelResults(cfg: Config, skips: seq<seq<bool>>, draws: seq<nat -> Sample>): seq<seq<Row>>
    requires |skips| == cfg.numServers && |draws| == cfg.numServers
  {
    seq(cfg.numServers, i requires 0 <= i < cfg.numServers => ServerRows(i + 1, cfg.start, skips[i], draws[i], 0))
  }

  /** `parallel_data_generation` without the CSV writing: the flattened
      result of generating every server in id order. */
  method ParallelDataGeneration(cfg: Config, skips: seq<seq<bool>>, draws: seq<nat -> Sample>)
    returns (allData: seq<Row>)
    requires |skips| == cfg.numServers && |draws| == cfg.numServers
    requires forall i :: 0 <= i < |skips| ==> |skips[i]| == cfg.numDays
    ensures allData == Flatten(ParallelResults(cfg, skips, draws))
  {
    var results: seq<seq<Row>> := [];
    for serverId := 1 to cfg.numServers + 1
      invariant results == ParallelResults(cfg, skips, draws)[..serverId - 1]
    {
      var rows, _ := GenerateServerData(cfg, serverId, skips[serverId - 1], draws[serverId - 1], 0);
      results := results + [rows];
    }
    assert results == ParallelResults(cfg, skips, draws);
    allData := Flatten(results);
  }

  /** The shape every per-server list has, whatever the values: list `i`
      holds 2880 rows per included day of server `i + 1`, all named after
      that server. */
  predicate ServerBlocks(skips: seq<seq<bool>>, blocks: seq<seq<Row>>) {
    |blocks| == |skips| &&
    forall i :: 0 <= i < |blocks| ==>
      |blocks[i]| == RowsPerDay * Kept(skips[i]) &&
      forall r :: r in blocks[i] ==> r.host == HostName(i + 1)
  }

  lemma {:induction false} ServerRowsShape(id: nat, start: int, skips: seq<bool>, draws: nat -> Sample, base: nat)
    ensures var rows := ServerRows(id, start, skips, draws, base);
      |rows| == RowsPerDay * Kept(skips) && forall r :: r in rows ==> r.host == HostName(id)
  {
    var rows := ServerRows(id, start, skips, draws, base);
    ServerRowsLength(id, start, skips, draws, base);
    forall r | r in rows ensures r.host == HostName(id) {
      var j :| 0 <= j < |rows| && rows[j] == r;
      ServerRowsContent(id, start, skips, draws, base, j);
    }
  }

  lemma ParallelResultsShape(cfg: Config, skips: seq<seq<bool>>, draws: seq<nat -> Sample>)
    requires |skips| == cfg.numServers && |draws| == cfg.numServers
    ensures ServerBlocks(skips, ParallelResults(cfg, skips, draws))
  {
    var blocks := ParallelResults(cfg, skips, draws);
    forall i | 0 <= i < |blocks|
      ensures |blocks[i]| == RowsPerDay * Kept(skips[i]) && forall r: Row :: r in blocks[i] ==> r.host == HostName(i + 1)
    {
      ServerRowsShape(i + 1, cfg.start, skips[i], draws[i], 0);
    }
  }

  /** With in-range value streams, every row of the flattened output has cpu
      and mem in range. */
  lemma ParallelOutputInRange(cfg: Config, skips: seq<seq<bool>>, draws: seq<nat -> Sample>)
    requires |skips| == cfg.numServers && |draws| == cfg.numServers
    requires forall i: nat, n: nat :: i < |draws| ==> SampleInRange(draws[i](n))
    ensures forall r :: r in Flatten(ParallelResults(cfg, skips, draws)) ==> RowInRange(r)
  {
    var results := ParallelResults(cfg, skips, draws);
    var out := Flatten(results);
    forall r | r in out ensures RowInRange(r) {
      var p :| 0 <= p < |out| && out[p] == r;
      var i := BlockOf(results, p);
      FlattenAt(results, i, p - Offset(results, i));
      ServerRowsInRange(i + 1, cfg.start, skips[i], draws[i], 0);
      assert r in results[i];
    }
  }

  /** The rows of server `i + 1` start after 2880 rows for every included
      (server, day) pair of the servers before it. */
  lemma {:induction false} BlocksOffset(skips: seq<seq<bool>>, blocks: seq<seq<Row>>, i: nat)
    requires ServerBlocks(skips, blocks) && i <= |blocks|
    ensures Offset(blocks, i) == RowsPerDay * TotalKept(skips[..i])
  {
    if i == 0 {
      assert blocks[..0] == [];
    } else {
      BlocksOffset(skips, blocks, i - 1);
      OffsetStep(blocks, i - 1);
      assert skips[..i][..i - 1] == skips[..i - 1];
    }
  }

  /** The flattened list holds 2880 rows per included (server, day) pair. */
  lemma OutputLength(skips: seq<seq<bool>>, blocks: seq<seq<Row>>)
    requires ServerBlocks(skips, blocks)
    ensures |Flatten(blocks)| == RowsPerDay * TotalKept(skips)
  {
    BlocksOffset(skips, blocks, |blocks|);
    assert blocks[..|blocks|] == blocks;
    assert skips[..|skips|] == skips;
  }

  /** Every row of the flattened list belongs to the server whose list it
      came from. */
  lemma OutputHostAt(skips: seq<seq<bool>>, blocks: seq<seq<Row>>, p: nat)
    requires ServerBlocks(skips, blocks) && p < |Flatten(blocks)|
    ensures Flatten(blocks)[p].host == HostName(BlockOf(blocks, p) + 1)
  {
    var i := BlockOf(blocks, p);
    FlattenAt(blocks, i, p - Offset(blocks, i));
    assert blocks[i][p - Offset(blocks, i)] in blocks[i];
  }

  /** The rows named after server `i + 1` are exactly the positions of its
      own list: each server's rows are one contiguous run. */
  lemma OutputServerRun(skips: seq<seq<bool>>, blocks: seq<seq<Row>>, i: nat, p: nat)
    requires ServerBlocks(skips, blocks) && i < |blocks| && p < |Flatten(blocks)|
    ensures Flatten(blocks)[p].host == HostName(i + 1) <==> Offset(blocks, i) <= p < Offset(blocks, i + 1)
  {
    var b := BlockOf(blocks, p);
    OutputHostAt(skips, blocks, p);
    HostNameInjective(b + 1, i + 1);
    OffsetStep(blocks, i);
    OffsetStep(blocks, b);
    if b < i {
      OffsetMonotone(blocks, b, i);
    } else if i < b {
      OffsetMonotone(blocks, i, b);
    }
  }

  /** Rows are grouped by host in ascending server id. */
  lemma OutputHostsAscending(skips: seq<seq<bool>>, blocks: seq<seq<Row>>, p: nat, q: nat, a: nat, b: nat)
    requires ServerBlocks(skips, blocks) && p <= q < |Flatten(blocks)|
    requires Flatten(blocks)[p].host == HostName(a) && Flatten(blocks)[q].host == HostName(b)
    ensures a <= b
  {
    var bp, bq := BlockOf(blocks, p), BlockOf(blocks, q);
    OutputHostAt(skips, blocks, p);
    OutputHostAt(skips, blocks, q);
    HostNameInjective(a, bp + 1);
    HostNameInjective(b, bq + 1);
    if bq < bp {
      OffsetMonotone(blocks, bq, bp);
    }
  }

  /** Each row is named after one of the servers 1..NUM_SERVERS. */
  lemma OutputHostsAreServers(skips: seq<seq<bool>>, blocks: seq<seq<Row>>, p: nat)
    requires ServerBlocks(skips, blocks) && p < |Flatten(blocks)|
    ensures exists id :: 1 <= id <= |skips| && Flatten(blocks)[p].host == HostName(id)
  {
    OutputHostAt(skips, blocks, p);
    assert Flatten(blocks)[p].host == HostName(BlockOf(blocks, p) + 1);
  }

  /** `host_<id>` occurs in the output exactly when `id` is one of the
      servers and at least one of its days was included. */
  lemma OutputHostPresent(skips: seq<seq<bool>>, blocks: seq<seq<Row>>, id: nat)
    requires ServerBlocks(skips, blocks)
    ensures (exists p :: 0 <= p < |Flatten(blocks)| && Flatten(blocks)[p].host == HostName(id))
        <==> 1 <= id <= |skips| && Kept(skips[id - 1]) > 0
  {
    var out := Flatten(blocks);
    if p :| 0 <= p < |out| && out[p].host == HostName(id) {
      var b := BlockOf(blocks, p);
      OutputHostAt(skips, blocks, p);
      HostNameInjective(id, b + 1);
    }
    if 1 <= id <= |skips| && Kept(skips[id - 1]) > 0 {
      FlattenAt(blocks, id - 1, 0);
      assert blocks[id - 1][0] in blocks[id - 1];
      assert out[Offset(blocks, id - 1)].host == HostName(id);
    }
  }
}
