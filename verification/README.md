# Synthetic server-metrics generator, modelled in Dafny

The repository generates test data for server monitoring. For each server
`host_<id>`, `id` in 1..NUM_SERVERS, and for each of NUM_DAYS consecutive days from
START_DATE, it draws once to decide whether the day is missing. A day that is not
missing gets one row `[time, host_name, cpu_used, mem_used]` every 30 seconds, from
midnight up to but not including the next midnight. The rows then go to a CSV file.
There are two copies of this logic. `generator.py` is one module-level loop that
appends to a single list `data`. `gen_async.py` has a per-server function
`generate_server_data`, maps it over the servers with a process pool, and flattens
the per-server lists.

This project models the list-building part of both scripts and proves the shape of
what they build:

- `decimal.dfy` (module `Decimal`): Python's `str()` of a non-negative integer, used
  for host names, with its inverse.
- `metrics.dfy` (module `Metrics`): the row, sample and configuration types, the rows
  of one day (`DayRows`) and of one server (`ServerRows`), and the per-server
  properties.
- `gen_async.dfy` (module `GenAsync`): `generate_server_data` as an imperative method
  with the script's day loop and 30-second `while` loop. Also `pool.map` as an
  in-order map, the flattening comprehension, and the properties of the flattened
  output.
- `generator.dfy` (module `Generator`): the script's server loop and its day and
  30-second loops, also imperative, and a proof that both scripts build the same
  rows.

Modelling choices:

- Times are whole seconds. The source's datetimes are naive, so every day is 86400
  seconds long and day `d` starts at `start + 86400 * d`.
- The skip draws `random.random() < MISSING_DATA_PROB` are an input: `skips[i][d]`
  is the draw for server `i + 1` on day `d`.
- The numpy value draws are an input stream, a total function from stream position
  to `Sample(cpu, mem)`. A sample is the pair of rounded values for one row, written
  in hundredths.
- `generator.py` reads one shared stream, so server `i + 1` starts reading where
  server `i` stopped (`Generator.StreamPosition`).
- In `gen_async.py` each server's value stream is an input of its own: `draws[i]`
  is whatever the stream of the worker that runs server `i + 1` delivers from the
  point where that server starts. Which worker runs a server, and where that
  worker's stream stands, are not modelled.

A server whose every day is skipped has no rows at all, so its name does not appear
in the output; `GenAsync.OutputHostPresent` states this.

## Model

| member | source | states |
|---|---|---|
| `Decimal.NatToString` | gen_async.py:19 | `str(id)` is a non-empty string of decimal digits, starting with `0` only for zero, and a single digit below ten |
| `Decimal.NatToStringRoundTrip` | gen_async.py:19 | reading the digits of `str(n)` back gives `n` |
| `Decimal.NatToStringInjective` | gen_async.py:19 | `str(a) == str(b)` exactly when `a == b` |
| `Metrics.HostName` | gen_async.py:19 | the name is `host_` followed by decimal digits that read back as the server id, with no leading zero: exactly `str(id)` for every id >= 1 |
| `Metrics.HostNameInjective` | generator.py:22-23 | two servers share a host name only if they are the same server |
| `Metrics.DayRowsOnGrid` | gen_async.py:30-39 | an included day has 2880 rows; the first is at midnight and the last at midnight + 86370 s, and every timestamp is a 30-second boundary of that day |
| `Metrics.DayRowsCoverDay` | gen_async.py:30-39 | every 30-second boundary from midnight up to, and not including, the next midnight has its row |
| `Metrics.KeptBound` | gen_async.py:22-27 | the number of included days is at most NUM_DAYS; it equals NUM_DAYS exactly when no day is skipped, and 0 exactly when every day is skipped |
| `Metrics.TotalKeptExtremes` | generator.py:22-31 | over all servers: no pair skipped gives NUM_SERVERS * NUM_DAYS included pairs, and all skipped gives none |
| `Metrics.ServerRowsLength` | gen_async.py:22-39 | a server gets 2880 rows per included day |
| `Metrics.ServerRowsContent` | gen_async.py:32-36 | row `j` of a server carries `host_<id>` and the values of stream position `base + j`: the values are used in draw order |
| `Metrics.ServerRowsInRange` | gen_async.py:32-33 | if the draws are in range, every row has cpu in [10.00, 90.00] and mem in [20.00, 95.00] |
| `Metrics.ServerRowsOnGrid` | gen_async.py:22-39 | every timestamp is `start + 86400*d + 30*k` for an included day `d` < NUM_DAYS and some `k` < 2880 |
| `Metrics.ServerRowsWithinWindow` | gen_async.py:22-31 | every timestamp lies in `[start, start + 86400 * NUM_DAYS)` |
| `Metrics.ServerRowsIncreasing` | gen_async.py:22-39 | timestamps strictly increase along a server's rows |
| `Metrics.ServerRowsPrefix` | gen_async.py:22-36 | the rows after the first `m` days are a prefix of the final rows: later days only append |
| `Metrics.KeptDayComplete` | gen_async.py:30-39 | included day `d` puts its `k`-th 30-second boundary at position `2880 * (included days before d) + k`, for every `k` < 2880 |
| `Metrics.SkippedDayAbsent` | gen_async.py:26-27 | a skipped day has no row: no timestamp lies between its midnight and the next |
| `Metrics.ServerRowsTimes` | gen_async.py:30-39 | timestamps do not depend on the value stream |
| `Metrics.DayRowsStream` | gen_async.py:32-33 | a day's rows depend only on the 2880 samples the stream delivers from where the day starts reading it |
| `Metrics.ServerRowsStream` | gen_async.py:32-33 | a server's rows depend only on the samples the stream delivers from its starting position |
| `GenAsync.GenerateServerData` | gen_async.py:17-41 | the day and 30-second loops build exactly `ServerRows` for the server, and leave the stream one draw per row further on |
| `GenAsync.FlattenAppend` | gen_async.py:53 | flattening two lists of lists one after the other gives the two flattened lists one after the other |
| `GenAsync.OffsetStep` | gen_async.py:53 | list `i + 1` starts right after the last element of list `i` |
| `GenAsync.OffsetMonotone` | gen_async.py:53 | later lists start no earlier, and each starts after the whole of every earlier list |
| `GenAsync.FlattenAt` | gen_async.py:53 | element `k` of list `i` appears in the flat list at the offset of list `i` plus `k`: order and contents are kept |
| `GenAsync.BlockOf` | gen_async.py:53 | every position of the flat list falls within the run of some list |
| `GenAsync.BlockOfUnique` | gen_async.py:53 | a position lies in no other list's run: the runs of the lists do not overlap, so each position belongs to exactly one list |
| `GenAsync.ParallelDataGeneration` | gen_async.py:43-53 | the result is the flattening of the per-server lists for ids 1..NUM_SERVERS, in submission order |
| `GenAsync.ServerRowsShape` | gen_async.py:19-36 | a server's list has 2880 rows per included day, all named `host_<id>` |
| `GenAsync.ParallelResultsShape` | gen_async.py:50 | the list `pool.map` returns for server `i + 1` has that shape |
| `GenAsync.ParallelOutputInRange` | gen_async.py:32-53 | if every server's draws are in range, every row of the flattened output has cpu in [10.00, 90.00] and mem in [20.00, 95.00] |
| `GenAsync.BlocksOffset` | gen_async.py:50-53 | server `i + 1`'s rows start after 2880 rows for each included (server, day) pair of servers 1..i |
| `GenAsync.OutputLength` | gen_async.py:50-53 | the flattened output has 2880 rows for each included (server, day) pair |
| `GenAsync.OutputHostAt` | gen_async.py:53 | each output row is named after the server whose list it came from |
| `GenAsync.OutputServerRun` | generator.py:22-40 | a row is named `host_<i+1>` exactly when it lies in server `i + 1`'s run: each server's rows are contiguous |
| `GenAsync.OutputHostsAscending` | generator.py:22-40 | for rows p <= q named `host_a` and `host_b`, `a <= b`: rows are grouped by host in ascending id order |
| `GenAsync.OutputHostsAreServers` | generator.py:22-23 | every row is named `host_<id>` for some id in 1..NUM_SERVERS |
| `GenAsync.OutputHostPresent` | generator.py:22-31 | `host_<id>` occurs in the output exactly when `id` is in 1..NUM_SERVERS and at least one of its days is included |
| `Generator.AppendServer` | generator.py:23-43 | the body of the server loop appends exactly that server's rows to `data`, keeps the earlier rows unchanged, and advances the shared stream one draw per row |
| `Generator.Generate` | generator.py:19-43 | the script's `data` is the concatenation, in id order, of each server's rows, each read from the shared stream where the previous server stopped |
| `Generator.ServerAppended` | generator.py:22-43 | finishing a server appends its rows and advances the shared stream by their number |
| `Generator.SequentialResultsShape` | generator.py:22-40 | each server's part of `data` has 2880 rows per included day, all named after that server |
| `Generator.GenerateInRange` | generator.py:33-40 | if the shared stream's draws are in range, every row of `data` has cpu in [10.00, 90.00] and mem in [20.00, 95.00] |
| `Generator.SequentialMatchesParallel` | generator.py:22-43 | if each server's own stream delivers what the shared stream delivers from where that server starts, both scripts build the same per-server lists and the same output |
| `Generator.GenerateExtremes` | generator.py:22-43 | with no day skipped `data` has NUM_SERVERS * NUM_DAYS * 2880 rows; with every day skipped it is empty |
| `Generator.SourceConfigRowCount` | generator.py:7-10 | with the script's own configuration and no day skipped, `data` has 86,400,000 rows |
| `Generator.TwoServersOneDay` | generator.py:22-43 | two servers, one day, nothing skipped: 5760 rows; `host_1`'s run from midnight to 23:59:30 comes first, then `host_2`'s |

The following are reference definitions without contracts of their own. The lemmas
above state their properties, and the methods are proved equal to them:

- `Metrics.Row`: the row layout `[time, host_name, cpu_used, mem_used]` (gen_async.py:36).
- `Metrics.DayRows` and `Metrics.ServerRows`: the day and 30-second loops (gen_async.py:22-39).
- `GenAsync.Flatten`: the comprehension at gen_async.py:53.
- `GenAsync.ParallelResults`: the per-server lists `pool.map` returns (gen_async.py:50).
- `Generator.SequentialResults`: what each pass of the server loop appends to `data` (generator.py:22-43).
- `Generator.StreamPosition`: where the shared numpy state stands when a server starts (generator.py:22-43).
- `Generator.SourceConfig`: the script's constants (generator.py:7-10).

## Left out

- DataFrame construction and `to_csv` (gen_async.py:56-59, generator.py:46-49): file output and library formatting.
- `multiprocessing.Pool` and `cpu_count` (gen_async.py:45-50): concurrency. Only the result of `pool.map`, the per-server lists in submission order, is modelled, as a sequential map.
- How `pool.map` (gen_async.py:50) splits the servers into chunks, each run in turn on one worker's numpy state, and that forked workers start from copies of the same state. Each server's value stream is an arbitrary input, so any position of any worker's stream is covered, but how the streams of different servers relate is not modelled.
- `random.random()`, `np.random.uniform` and `round(..., 2)` (gen_async.py:26, gen_async.py:32-33): randomness and floating point. They become the skip flags and the stream of integer-hundredths samples. MISSING_DATA_PROB appears only through the flags, so no probabilities are modelled.
- The two numpy draws of a row (cpu, then mem) are one stream element, a `Sample` pair.
- `datetime.strptime` of START_DATE (gen_async.py:15, generator.py:13): a library call. The start is given as seconds; `Generator.SourceConfig` uses 1704067200 for 2024-01-01.
- `print` messages (gen_async.py:46, gen_async.py:61, generator.py:51) and the `__main__` guard: output only.
- Times are unbounded integers. Outside `datetime`'s range (years 1..9999), the source raises OverflowError at `current_day + timedelta(days=1)` (gen_async.py:31, generator.py:35) and writes no CSV. The model instead goes on generating rows. `Config.start` also admits values that `strptime` cannot produce.
- NUM_SERVERS and NUM_DAYS are natural numbers. The behaviour of `range()` on a negative constant (no iterations) is not modelled.
- `GenAsync.ParallelDataGeneration`, `Generator.AppendServer` and `Generator.Generate`: the value stream is a total function, so running out of random numbers cannot happen and is not modelled.
